/** The videocall user directory that several proxies share: each proxy keeps its own users in memory and
    mirrors them into one Redis store, remembering in a resync set the names whose record may be out of date.
    Every method is one step, and every Redis call of a step may raise, in which case it has no effect. */
module UserDirectory {

  import opened Common

  type ProxyId = string

  datatype User = User(handle: int, incall: bool, peer: string, ctime: real, utime: real)

  /** The hash stored under a user's key. Flags are stored as text. */
  datatype Record = Record(owner: ProxyId, incall: string, peer: string, ctime: real, utime: real)

  /** What a lookup answers: nothing, a user of this proxy, or the record of a user of another proxy. */
  datatype Found = NoUser | Local(user: User) | Remote(incall: bool, peer: string, ctime: real, utime: real)

  /** Which Redis calls of a step raise: reading the user's hash, reading its proxy's hash, writing. */
  datatype Faults = Faults(readUser: bool, readProxy: bool, write: bool)

  const NO_FAULTS := Faults(false, false, false)

  /** What one proxy sees: the shared store, the proxies whose record has not expired, its own memory and resync set. */
  datatype View = View(users: map<string, Record>, live: set<ProxyId>, mem: map<string, User>, queue: set<string>)

  function FlagText(b: bool): string { if b then "1" else "" }

  function TextFlag(s: string): bool { s != "" }

  function ToRecord(me: ProxyId, user: User): Record {
    Record(me, FlagText(user.incall), user.peer, user.ctime, user.utime)
  }

  function FromRecord(r: Record): Found {
    Remote(TextFlag(r.incall), r.peer, r.ctime, r.utime)
  }

  /** A stored user reads back with the fields it was stored with. */
  lemma RecordRoundTrip(me: ProxyId, user: User)
    ensures FromRecord(ToRecord(me, user)) == Remote(user.incall, user.peer, user.ctime, user.utime)
  {
  }

  // ---------- One step, as a function of what the proxy sees ----------

  /** The record of a user counts only while the record of its proxy has not expired. */
  function Visible(v: View, name: string): Option<Record> {
    if name in v.users && v.users[name].owner in v.live then Some(v.users[name]) else None
  }

  function ReadRaises(v: View, name: string, f: Faults): bool {
    f.readUser || (name in v.users && f.readProxy)
  }

  function Saved(v: View, me: ProxyId, name: string, user: User): View {
    v.(users := v.users[name := ToRecord(me, user)])
  }

  function Synced(v: View, name: string): View {
    v.(queue := v.queue - {name})
  }

  function Looked(v: View, me: ProxyId, name: string, f: Faults): (View, Found) {
    if ReadRaises(v, name, f) then (v, NoUser)
    else match Visible(v, name)
      case None =>
        if name !in v.mem then (Synced(v, name), NoUser)
        else if f.write then (v, NoUser)
        else (Synced(Saved(v, me, name, v.mem[name]), name), Local(v.mem[name]))
      case Some(r) =>
        if name !in v.mem then
          if r.owner != me then (Synced(v, name), FromRecord(r))
          else if f.write then (v, NoUser)
          else (Synced(v.(users := v.users - {name}), name), NoUser)
        else if r.owner != me then (Synced(v.(mem := v.mem - {name}), name), FromRecord(r))
        else if name !in v.queue then (Synced(v, name), Local(v.mem[name]))
        else if f.write then (v, NoUser)
        else (Synced(Saved(v, me, name, v.mem[name]), name), Local(v.mem[name]))
  }

  function Added(v: View, me: ProxyId, name: string, user: User, f: Faults): (View, bool) {
    if f.write then (v, false)
    else (Synced(Saved(v.(mem := v.mem[name := user]), me, name, user), name), true)
  }

  function Updated(v: View, me: ProxyId, name: string, user: User, f: Faults): View {
    var n := v.(mem := v.mem[name := user]);
    if f.write then n.(queue := n.queue + {name}) else Synced(Saved(n, me, name, user), name)
  }

  function Removed(v: View, me: ProxyId, name: string, handle: int, f: Faults): View {
    if name in v.mem && v.mem[name].handle != handle then v
    else
      var n := v.(mem := v.mem - {name});
      var own := Visible(v, name).Some? && Visible(v, name).value.owner == me;
      if ReadRaises(v, name, f) || (own && f.write) then n.(queue := n.queue + {name})
      else Synced(if own then n.(users := n.users - {name}) else n, name)
  }

  /** One user of a refresh, `None` if a Redis call raises. */
  function Resynced(v: View, me: ProxyId, name: string, f: Faults): Option<View> {
    if ReadRaises(v, name, f) then None
    else
      var r := Visible(v, name);
      var saves := name in v.mem && (r.None? || r.value.owner == me);
      var deletes := name !in v.mem && r.Some? && r.value.owner == me;
      if (saves || deletes) && f.write then None
      else if saves then Some(Synced(Saved(v, me, name, v.mem[name]), name))
      else if deletes then Some(Synced(v.(users := v.users - {name}), name))
      else Some(Synced(v, name))
  }

  /** The loop of a refresh over `plan`; the first call that raises ends it. */
  function ResyncedAll(v: View, me: ProxyId, plan: seq<(string, Faults)>): View
    decreases |plan|
  {
    if plan == [] then v
    else match Resynced(v, me, plan[0].0, plan[0].1)
      case None => v
      case Some(n) => ResyncedAll(n, me, plan[1..])
  }

  function Refreshed(v: View, me: ProxyId, proxyFault: bool, plan: seq<(string, Faults)>): View {
    if proxyFault then v else ResyncedAll(v.(live := v.live + {me}), me, plan)
  }

  // ---------- What a step leaves behind ----------

  /** The stored record of user `name` has these fields. */
  predicate StoredAs(v: View, me: ProxyId, name: string, user: User) {
    && name in v.users && v.users[name].owner == me && v.users[name].peer == user.peer
    && v.users[name].incall == (if user.incall then "1" else "")
    && v.users[name].ctime == user.ctime && v.users[name].utime == user.utime
  }

  /** Nothing but what concerns `name` has changed. */
  ghost predicate OnlyChanges(v: View, n: View, name: string) {
    && n.live == v.live
    && (forall u :: u != name ==> (u in n.mem <==> u in v.mem) && (u in v.mem ==> n.mem[u] == v.mem[u]))
    && (forall u :: u != name ==> (u in n.users <==> u in v.users) && (u in v.users ==> n.users[u] == v.users[u]))
    && (forall u :: u != name ==> (u in n.queue <==> u in v.queue))
  }

  /** A registration succeeds unless the write raises; then nothing has changed. */
  lemma AddedIs(v: View, me: ProxyId, name: string, user: User, f: Faults)
    ensures var (n, ok) := Added(v, me, name, user, f);
      && (ok <==> !f.write)
      && (!ok ==> n == v)
      && (ok ==> name in n.mem && n.mem[name] == user && StoredAs(n, me, name, user) && name !in n.queue)
      && OnlyChanges(v, n, name)
  {
  }

  /** An update always reaches the memory, and the store unless the write raises; then the name is queued. */
  lemma UpdatedIs(v: View, me: ProxyId, name: string, user: User, f: Faults)
    ensures var n := Updated(v, me, name, user, f);
      && name in n.mem && n.mem[name] == user
      && (!f.write ==> StoredAs(n, me, name, user) && name !in n.queue)
      && (f.write ==> n.users == v.users && name in n.queue)
      && OnlyChanges(v, n, name)
  {
  }

  /** A removal does nothing on behalf of a handle that has been replaced. Else the name leaves the memory, and its
      record the store if it is an own one that counts; if a call raises, the name is queued and its record stays. */
  lemma RemovedIs(v: View, me: ProxyId, name: string, handle: int, f: Faults)
    ensures var n := Removed(v, me, name, handle, f);
      var replaced := name in v.mem && v.mem[name].handle != handle;
      var own := name in v.users && v.users[name].owner == me && me in v.live;
      var raises := f.readUser || (name in v.users && f.readProxy) || (own && f.write);
      && (replaced ==> n == v)
      && (!replaced ==> name !in n.mem && (name in n.queue <==> raises)
                        && (name in n.users <==> name in v.users && !(own && !raises))
                        && (name in n.users ==> n.users[name] == v.users[name]))
      && OnlyChanges(v, n, name)
  {
  }

  /** A lookup in which a call raises answers nothing and changes nothing. Which calls it makes: it reads the user and,
      if there is one, its proxy; it writes unless memory and store agree already or another proxy has the user. */
  lemma LookupRaises(v: View, me: ProxyId, name: string, f: Faults)
    ensures var counts := name in v.users && v.users[name].owner in v.live;
      var own := counts && v.users[name].owner == me;
      var writes := if name in v.mem then !counts || (own && name in v.queue) else own;
      var raises := f.readUser || (name in v.users && f.readProxy) || (writes && f.write);
      Looked(v, me, name, f) == if raises then (v, NoUser) else Looked(v, me, name, NO_FAULTS)
    ensures OnlyChanges(v, Looked(v, me, name, f).0, name)
  {
  }

  /** A user that was updated or registered is found here, and with its fields at any other proxy that sees the record
      of this one live. */
  lemma FoundAfterUpdate(v: View, me: ProxyId, name: string, user: User, w: View, other: ProxyId)
    requires w.users == Updated(v, me, name, user, NO_FAULTS).users && me in w.live && other != me
    ensures Looked(Updated(v, me, name, user, NO_FAULTS), me, name, NO_FAULTS).1 == Local(user)
    ensures Looked(w, other, name, NO_FAULTS).1 == Remote(user.incall, user.peer, user.ctime, user.utime)
    ensures Added(v, me, name, user, NO_FAULTS) == (Updated(v, me, name, user, NO_FAULTS), true)
  {
  }

  /** The first thing a refresh does is to renew the record of the proxy; if that raises, it does nothing. */
  lemma RefreshRenews(v: View, me: ProxyId, proxyFault: bool, plan: seq<(string, Faults)>)
    ensures proxyFault ==> Refreshed(v, me, proxyFault, plan) == v
    ensures !proxyFault ==> Refreshed(v, me, proxyFault, plan).live == v.live + {me}
  {
    if !proxyFault { ResyncKeepsLive(v.(live := v.live + {me}), me, plan); }
  }

  lemma {:induction false} ResyncKeepsLive(v: View, me: ProxyId, plan: seq<(string, Faults)>)
    ensures ResyncedAll(v, me, plan).live == v.live
    decreases |plan|
  {
    if plan != [] && Resynced(v, me, plan[0].0, plan[0].1).Some? {
      ResyncKeepsLive(Resynced(v, me, plan[0].0, plan[0].1).value, me, plan[1..]);
    }
  }

  /** One queued name: its record is written from memory unless it counts and belongs to another proxy, and deleted if
      it is an own one that memory does not hold; it stays queued exactly if a call raises. */
  lemma ResyncedIs(v: View, me: ProxyId, name: string, f: Faults)
    ensures var r := Resynced(v, me, name, f);
      var counts := name in v.users && v.users[name].owner in v.live;
      var own := counts && v.users[name].owner == me;
      var saves := name in v.mem && (!counts || own);
      var deletes := name !in v.mem && own;
      && (r.None? <==> f.readUser || (name in v.users && f.readProxy) || ((saves || deletes) && f.write))
      && (r.Some? ==> name !in r.value.queue && r.value.mem == v.mem && OnlyChanges(v, r.value, name)
                      && (saves ==> StoredAs(r.value, me, name, v.mem[name]))
                      && (deletes ==> name !in r.value.users)
                      && (!saves && !deletes ==> r.value.users == v.users))
  {
  }

  /** A step of one proxy leaves the memory and the resync set of every other proxy alone, and the record of a proxy
      expires only when it does. */
  lemma StepIsLocal(s: System, e: Event, q: ProxyId)
    requires q in s.proxies && q != e.p
    ensures q in Step(s, e).proxies && Step(s, e).proxies[q] == s.proxies[q]
    ensures q in Step(s, e).live <==> q in s.live
    ensures e.Expire? && e.p in s.proxies ==> Step(s, e).live == s.live - {e.p} && Step(s, e).users == s.users
  {
    if e.p in s.proxies && e.DoRefresh? && !e.proxyFault { RefreshRenews(ViewOf(s, e.p), e.p, e.proxyFault, e.plan); }
  }

  // ---------- The whole system ----------

  datatype Local = LocalState(mem: map<string, User>, queue: set<string>)

  datatype System = System(users: map<string, Record>, live: set<ProxyId>, proxies: map<ProxyId, Local>)

  datatype Event =
    | DoLookup(p: ProxyId, name: string, f: Faults)
    | DoAdd(p: ProxyId, name: string, user: User, f: Faults)
    | DoUpdate(p: ProxyId, name: string, user: User, f: Faults)
    | DoRemove(p: ProxyId, name: string, handle: int, f: Faults)
    | DoRefresh(p: ProxyId, proxyFault: bool, plan: seq<(string, Faults)>)
    | Expire(p: ProxyId)

  function ViewOf(s: System, p: ProxyId): View
    requires p in s.proxies
  {
    View(s.users, s.live, s.proxies[p].mem, s.proxies[p].queue)
  }

  function WithView(s: System, p: ProxyId, v: View): System {
    System(v.users, v.live, s.proxies[p := LocalState(v.mem, v.queue)])
  }

  function Acted(v: View, me: ProxyId, e: Event): View {
    match e
    case DoLookup(_, name, f) => Looked(v, me, name, f).0
    case DoAdd(_, name, user, f) => Added(v, me, name, user, f).0
    case DoUpdate(_, name, user, f) => Updated(v, me, name, user, f)
    case DoRemove(_, name, handle, f) => Removed(v, me, name, handle, f)
    case DoRefresh(_, proxyFault, plan) => Refreshed(v, me, proxyFault, plan)
    case Expire(_) => v.(live := v.live - {me})
  }

  function Step(s: System, e: Event): System {
    if e.p in s.proxies then WithView(s, e.p, Acted(ViewOf(s, e.p), e.p, e)) else s
  }

  function Run(s: System, es: seq<Event>): System
    decreases |es|
  {
    if es == [] then s else Run(Step(s, es[0]), es[1..])
  }

  /** The mirror of proxy `a`: each record it owns is either queued for resync or equal to its user in memory. */
  ghost predicate Mirrored(v: View, a: ProxyId) {
    forall u :: u in v.users && v.users[u].owner == a && u !in v.queue ==> Agrees(v, a, u)
  }

  ghost predicate Agrees(v: View, a: ProxyId, u: string) {
    u in v.users && u in v.mem && v.users[u] == ToRecord(a, v.mem[u])
  }

  /** The one way to lose track of an own record: it is invisible because the record of the proxy itself has
      expired, and the step drops the name from memory or finds it absent there, without a read that raises. */
  predicate LosesTrack(v: View, a: ProxyId, e: Event) {
    match e
    case DoLookup(_, name, f) => OwnButExpired(v, a, name) && name !in v.mem && !ReadRaises(v, name, f)
    case DoRemove(_, name, handle, f) =>
      OwnButExpired(v, a, name) && !ReadRaises(v, name, f) && (name in v.mem ==> v.mem[name].handle == handle)
    case _ => false
  }

  predicate OwnButExpired(v: View, a: ProxyId, name: string) {
    name in v.users && v.users[name].owner == a && a !in v.live
  }

  lemma {:induction false} ResyncKeepsMirror(v: View, a: ProxyId, plan: seq<(string, Faults)>)
    requires Mirrored(v, a) && a in v.live
    ensures Mirrored(ResyncedAll(v, a, plan), a)
    decreases |plan|
  {
    if plan != [] && Resynced(v, a, plan[0].0, plan[0].1).Some? {
      var n := Resynced(v, a, plan[0].0, plan[0].1).value;
      forall u | u in n.users && n.users[u].owner == a && u !in n.queue ensures Agrees(n, a, u) {
        assert u != plan[0].0 ==> Agrees(v, a, u);
      }
      ResyncKeepsMirror(n, a, plan[1..]);
    }
  }

  lemma OwnLookup(v: View, a: ProxyId, name: string, f: Faults)
    requires Mirrored(v, a)
    ensures Mirrored(Looked(v, a, name, f).0, a) <==> !LosesTrack(v, a, DoLookup(a, name, f))
  {
    var n := Looked(v, a, name, f).0;
    if LosesTrack(v, a, DoLookup(a, name, f)) {
      assert !Agrees(n, a, name);
    } else {
      forall u | u in n.users && n.users[u].owner == a && u !in n.queue ensures Agrees(n, a, u) {
        assert u in v.users && v.users[u].owner == a && u !in v.queue ==> Agrees(v, a, u);
      }
    }
  }

  lemma OwnRemove(v: View, a: ProxyId, name: string, handle: int, f: Faults)
    requires Mirrored(v, a)
    ensures Mirrored(Removed(v, a, name, handle, f), a) <==> !LosesTrack(v, a, DoRemove(a, name, handle, f))
  {
    var n := Removed(v, a, name, handle, f);
    if LosesTrack(v, a, DoRemove(a, name, handle, f)) {
      assert !Agrees(n, a, name);
    } else {
      forall u | u in n.users && n.users[u].owner == a && u !in n.queue ensures Agrees(n, a, u) {
        assert u in v.users && v.users[u].owner == a && u !in v.queue ==> Agrees(v, a, u);
      }
    }
  }

  lemma OwnRefresh(v: View, a: ProxyId, proxyFault: bool, plan: seq<(string, Faults)>)
    requires Mirrored(v, a)
    ensures Mirrored(Refreshed(v, a, proxyFault, plan), a)
  {
    var n := v.(live := v.live + {a});
    forall u | u in n.users && n.users[u].owner == a && u !in n.queue ensures Agrees(n, a, u) {
      assert Agrees(v, a, u);
    }
    if !proxyFault {
      ResyncKeepsMirror(n, a, plan);
    }
  }

  lemma OwnWrite(v: View, a: ProxyId, e: Event)
    requires Mirrored(v, a) && (e.DoAdd? || e.DoUpdate? || e.Expire?)
    ensures Mirrored(Acted(v, a, e), a)
  {
    var n := Acted(v, a, e);
    forall u | u in n.users && n.users[u].owner == a && u !in n.queue ensures Agrees(n, a, u) {
      assert u in v.users && v.users[u].owner == a && u !in v.queue ==> Agrees(v, a, u);
    }
  }

  /** A step of proxy `a` itself keeps its mirror exactly if it does not lose track of an own record. */
  lemma OwnStep(v: View, a: ProxyId, e: Event)
    requires Mirrored(v, a) && e.p == a
    ensures Mirrored(Acted(v, a, e), a) <==> !LosesTrack(v, a, e)
  {
    match e {
      case DoLookup(_, name, f) => OwnLookup(v, a, name, f);
      case DoRemove(_, name, handle, f) => OwnRemove(v, a, name, handle, f);
      case DoRefresh(_, proxyFault, plan) => OwnRefresh(v, a, proxyFault, plan);
      case _ => OwnWrite(v, a, e);
    }
  }

  lemma {:induction false} OthersInRefresh(v: View, b: ProxyId, plan: seq<(string, Faults)>, u: string)
    ensures var n := ResyncedAll(v, b, plan);
      (u in n.users && n.users[u].owner != b ==> u in v.users && v.users[u] == n.users[u])
      && (u in v.users && (v.users[u].owner != b || u in v.mem) ==> u in n.users)
    decreases |plan|
  {
    if plan != [] && Resynced(v, b, plan[0].0, plan[0].1).Some? {
      OthersInRefresh(Resynced(v, b, plan[0].0, plan[0].1).value, b, plan[1..], u);
    }
  }

  /** No step of proxy `b` deletes a record of another proxy, or writes one: such a record is left as it is or
      taken over by `b`. */
  lemma NeverDeletesOthers(v: View, b: ProxyId, e: Event, u: string)
    requires e.p == b
    ensures var n := Acted(v, b, e);
      (u in n.users && n.users[u].owner != b ==> u in v.users && v.users[u] == n.users[u])
      && (u in v.users && v.users[u].owner != b ==> u in n.users)
  {
    if e.DoRefresh? && !e.proxyFault {
      OthersInRefresh(v.(live := v.live + {b}), b, e.plan, u);
    }
  }

  ghost predicate MirrorOf(s: System, a: ProxyId) {
    a in s.proxies && Mirrored(ViewOf(s, a), a)
  }

  /** A step of any proxy keeps the mirror of proxy `a` exactly if it is not a step in which `a` loses track. */
  lemma StepMirror(s: System, e: Event, a: ProxyId)
    requires MirrorOf(s, a)
    ensures MirrorOf(Step(s, e), a) <==> !(e.p == a && LosesTrack(ViewOf(s, a), a, e))
  {
    if e.p == a {
      OwnStep(ViewOf(s, a), a, e);
      assert ViewOf(Step(s, e), a) == Acted(ViewOf(s, a), a, e);
    } else if e.p in s.proxies {
      var v, n := ViewOf(s, a), ViewOf(Step(s, e), a);
      forall u | u in n.users && n.users[u].owner == a && u !in n.queue ensures Agrees(n, a, u) {
        NeverDeletesOthers(ViewOf(s, e.p), e.p, e, u);
        assert Agrees(v, a, u);
      }
    }
  }

  /** No step of the run makes proxy `a` lose track of a record. */
  ghost predicate KeepsTrack(s: System, es: seq<Event>, a: ProxyId)
    decreases |es|
  {
    es == [] || (a in s.proxies && !(es[0].p == a && LosesTrack(ViewOf(s, a), a, es[0]))
      && KeepsTrack(Step(s, es[0]), es[1..], a))
  }

  /** In every interleaving of steps of any number of proxies, with any Redis failures, a record owned by `a` is
      queued or equal to its user in memory. */
  lemma {:induction false} MirrorRun(s: System, es: seq<Event>, a: ProxyId)
    requires MirrorOf(s, a) && KeepsTrack(s, es, a)
    ensures MirrorOf(Run(s, es), a)
    decreases |es|
  {
    if es != [] {
      StepMirror(s, es[0], a);
      MirrorRun(Step(s, es[0]), es[1..], a);
    }
  }

  /** The record of proxy `a` is live whenever `a` itself looks up or removes a user. */
  ghost predicate LiveWhenActing(s: System, es: seq<Event>, a: ProxyId)
    decreases |es|
  {
    es == [] || ((es[0].p == a && (es[0].DoLookup? || es[0].DoRemove?) ==> a in s.live)
      && LiveWhenActing(Step(s, es[0]), es[1..], a))
  }

  /** A proxy that stays live never loses track. */
  lemma {:induction false} LiveKeepsTrack(s: System, es: seq<Event>, a: ProxyId)
    requires a in s.proxies && LiveWhenActing(s, es, a)
    ensures KeepsTrack(s, es, a)
    decreases |es|
  {
    if es != [] {
      LiveKeepsTrack(Step(s, es[0]), es[1..], a);
    }
  }

  /** At the start every mirror holds. */
  lemma StartMirrored(s: System, a: ProxyId)
    requires s.users == map[] && a in s.proxies
    ensures MirrorOf(s, a)
  {
  }

  /** From an empty store on, a proxy that stays live has every record it owns queued or equal to memory. */
  lemma LiveRunMirrored(s: System, es: seq<Event>, a: ProxyId)
    requires s.users == map[] && a in s.proxies && LiveWhenActing(s, es, a)
    ensures MirrorOf(Run(s, es), a)
  {
    StartMirrored(s, a);
    LiveKeepsTrack(s, es, a);
    MirrorRun(s, es, a);
  }

  /** Liveness is needed: a proxy that removes a user while its own record has expired leaves the user's record
      behind, and finds it back when the next refresh revives it. */
  lemma ExpiredLosesTrack(user: User)
    ensures var s := System(map[], {"a"}, map["a" := LocalState(map[], {})]);
      var es := [DoAdd("a", "u", user, NO_FAULTS), Expire("a"), DoRemove("a", "u", user.handle, NO_FAULTS),
          DoRefresh("a", false, [])];
      MirrorOf(s, "a") && !MirrorOf(Run(s, es), "a") && "a" in Run(s, es).live
  {
    var s0 := System(map[], {"a"}, map["a" := LocalState(map[], {})]);
    var e3 := [DoRefresh("a", false, [])];
    var e2 := [DoRemove("a", "u", user.handle, NO_FAULTS)] + e3;
    var e1 := [Expire("a")] + e2;
    var es := [DoAdd("a", "u", user, NO_FAULTS)] + e1;
    var s1 := Step(s0, es[0]);
    var s2 := Step(s1, e1[0]);
    var s3 := Step(s2, e2[0]);
    var s4 := Step(s3, e3[0]);
    assert s1.users == map["u" := ToRecord("a", user)] == s3.users == s4.users;
    assert s3.proxies["a"] == LocalState(map[], {}) == s4.proxies["a"];
    assert !Agrees(ViewOf(s4, "a"), "a", "u");
    assert Run(s4, e3[1..]) == s4 == Run(s3, e3);
    assert e2[1..] == e3 && Run(s2, e2) == s4;
    assert e1[1..] == e2 && Run(s1, e1) == s4;
    assert es[1..] == e1 && Run(s0, es) == s4;
    assert es == [DoAdd("a", "u", user, NO_FAULTS), Expire("a"), DoRemove("a", "u", user.handle, NO_FAULTS),
        DoRefresh("a", false, [])];
  }

  // ---------- Convergence ----------

  /** Memory and store agree on the name, and it is not queued. */
  ghost predicate Converged(n: View, a: ProxyId, name: string) {
    && (name in n.mem <==> name in n.users && n.users[name].owner == a)
    && (name in n.mem ==> Agrees(n, a, name))
    && name !in n.queue
  }

  /** A lookup without faults ends with memory and store in agreement on that name, exactly if it is not the lookup of
      a name that the proxy does not hold but whose record it owns, while its own proxy record has expired. */
  lemma LookupConverges(v: View, a: ProxyId, name: string)
    requires Mirrored(v, a)
    ensures Converged(Looked(v, a, name, NO_FAULTS).0, a, name) <==> !(OwnButExpired(v, a, name) && name !in v.mem)
  {
    var n := Looked(v, a, name, NO_FAULTS).0;
    if name in v.users && v.users[name].owner == a && name !in v.queue {
      assert Agrees(v, a, name);
    }
    assert name in n.mem && !(OwnButExpired(v, a, name) && name !in v.mem) ==>
        n.users[name] == ToRecord(a, n.mem[name]);
  }

  /** It answers with what they then agree on: the user of this proxy, the record of another proxy, or nothing. In the
      other case it answers nothing and leaves the record. */
  lemma LookupAnswers(v: View, a: ProxyId, name: string)
    ensures var (n, found) := Looked(v, a, name, NO_FAULTS);
      && (found.Local? <==> name in n.mem)
      && (found.Local? ==> found.user == v.mem[name])
      && (found.Remote? <==> Visible(v, name).Some? && Visible(v, name).value.owner != a)
      && (found.Remote? ==> found == FromRecord(v.users[name]))
      && (OwnButExpired(v, a, name) && name !in v.mem ==> found.NoUser? && n.users == v.users && n.mem == v.mem)
  {
  }

  predicate FaultFree(plan: seq<(string, Faults)>) {
    forall i :: 0 <= i < |plan| ==> plan[i].1 == NO_FAULTS
  }

  predicate Covers(plan: seq<(string, Faults)>, names: set<string>) {
    forall u :: u in names ==> exists i :: 0 <= i < |plan| && plan[i].0 == u
  }

  lemma {:induction false} ResyncEmpties(v: View, a: ProxyId, plan: seq<(string, Faults)>)
    requires FaultFree(plan) && Covers(plan, v.queue)
    ensures ResyncedAll(v, a, plan).queue == {}
    decreases |plan|
  {
    if plan == [] {
      assert v.queue == {};
    } else {
      var n := Resynced(v, a, plan[0].0, plan[0].1).value;
      forall u | u in n.queue ensures exists i :: 0 <= i < |plan[1..]| && plan[1..][i].0 == u {
        var i :| 0 <= i < |plan| && plan[i].0 == u;
        assert plan[1..][i - 1].0 == u;
      }
      ResyncEmpties(n, a, plan[1..]);
    }
  }

  /** A refresh without faults empties the resync set, and then every record of the proxy equals memory, even if
      the record of the proxy had expired before. */
  lemma RefreshConverges(v: View, a: ProxyId, plan: seq<(string, Faults)>)
    requires Mirrored(v, a) && FaultFree(plan) && Covers(plan, v.queue)
    ensures var n := Refreshed(v, a, false, plan);
      n.queue == {} && forall u :: u in n.users && n.users[u].owner == a ==> Agrees(n, a, u)
  {
    OwnRefresh(v, a, false, plan);
    ResyncEmpties(v.(live := v.live + {a}), a, plan);
  }

  lemma {:induction false} RefreshKeepsMemory(v: View, a: ProxyId, plan: seq<(string, Faults)>)
    ensures ResyncedAll(v, a, plan).mem == v.mem
    decreases |plan|
  {
    if plan != [] && Resynced(v, a, plan[0].0, plan[0].1).Some? {
      RefreshKeepsMemory(Resynced(v, a, plan[0].0, plan[0].1).value, a, plan[1..]);
    }
  }

  /** A proxy forgets a user only when the handle that holds it removes it, or when a lookup finds that the user
      is now at another live proxy; in particular not when a replaced handle removes it. */
  lemma ForgetsOnly(v: View, a: ProxyId, e: Event, u: string)
    requires u in v.mem && e.p == a
    ensures u !in Acted(v, a, e).mem <==>
              (e.DoRemove? && e.name == u && e.handle == v.mem[u].handle)
              || (e.DoLookup? && e.name == u && !ReadRaises(v, u, e.f)
                  && Visible(v, u).Some? && Visible(v, u).value.owner != a)
  {
    if e.DoRefresh? && !e.proxyFault {
      RefreshKeepsMemory(v.(live := v.live + {a}), a, e.plan);
    }
  }

  // ---------- The DAO ----------

  /** The shared store. */
  class Redis {
    var users: map<string, Record>
    var live: set<ProxyId>

    method HGetUser(name: string, fault: bool) returns (raised: bool, r: Option<Record>)
      ensures raised == fault
      ensures !raised ==> r == if name in users then Some(users[name]) else None
    {
      if fault {
        return true, None;
      }
      return false, if name in users then Some(users[name]) else None;
    }

    method HMSetUser(name: string, r: Record, fault: bool) returns (raised: bool)
      modifies this`users
      ensures raised == fault && users == if fault then old(users) else old(users)[name := r]
    {
      if !fault {
        users := users[name := r];
      }
      return fault;
    }

    method Delete(name: string, fault: bool) returns (raised: bool)
      modifies this`users
      ensures raised == fault && users == if fault then old(users) else old(users) - {name}
    {
      if !fault {
        users := users - {name};
      }
      return fault;
    }
  }

  class VideoCallUserDao {
    const uuid: ProxyId
    const redis: Redis
    var usersByName: map<string, User>
    var toResync: set<string>

    ghost function State(): View
      reads this, redis
    {
      View(redis.users, redis.live, usersByName, toResync)
    }

    /** Starts with an empty memory and its proxy record stored; fails if the store cannot be reached. */
    constructor (id: ProxyId, store: Redis)
      ensures uuid == id && redis == store && usersByName == map[] && toResync == {}
    {
      uuid, redis, usersByName, toResync := id, store, map[], {};
    }

    /** The record of a user, if it and the record of its proxy are both stored. */
    method GetRdUser(name: string, f: Faults) returns (raised: bool, r: Option<Record>)
      ensures raised == ReadRaises(State(), name, f)
      ensures !raised ==> r == Visible(State(), name)
    {
      raised, r := redis.HGetUser(name, f.readUser);
      if raised || r.None? {
        return;
      }
      if f.readProxy {
        return true, None;
      }
      if r.value.owner !in redis.live {
        r := None;
      }
    }

    method GetByUsername(name: string, f: Faults) returns (found: Found)
      modifies this, redis`users
      ensures (State(), found) == old(Looked(State(), uuid, name, f))
    {
      var raised, r := GetRdUser(name, f);
      if raised {
        return NoUser;
      }
      if name !in usersByName {
        if r.None? {
          found := NoUser;
        } else if r.value.owner == uuid {
          raised := redis.Delete(name, f.write);
          found := NoUser;
        } else {
          found := FromRecord(r.value);
        }
      } else if r.None? {
        raised := redis.HMSetUser(name, ToRecord(uuid, usersByName[name]), f.write);
        found := Local(usersByName[name]);
      } else if r.value.owner == uuid {
        if name in toResync {
          raised := redis.HMSetUser(name, ToRecord(uuid, usersByName[name]), f.write);
        }
        found := Local(usersByName[name]);
      } else {
        usersByName := usersByName - {name};
        found := FromRecord(r.value);
      }
      if raised {
        return NoUser;
      }
      toResync := toResync - {name};
    }

    /** Registers a user. On a fault the memory is restored and the error is passed on. */
    method Add(name: string, user: User, f: Faults) returns (ok: bool)
      modifies this, redis`users
      ensures (State(), ok) == old(Added(State(), uuid, name, user, f))
    {
      var original := if name in usersByName then Some(usersByName[name]) else None;
      usersByName := usersByName[name := user];
      var raised := redis.HMSetUser(name, ToRecord(uuid, user), f.write);
      if raised {
        usersByName := if original.Some? then usersByName[name := original.value] else usersByName - {name};
        assert usersByName == old(usersByName);
        return false;
      }
      toResync := toResync - {name};
      return true;
    }

    /** Changes a user; a fault only postpones the change of its record. */
    method Update(name: string, user: User, f: Faults)
      modifies this, redis`users
      ensures State() == old(Updated(State(), uuid, name, user, f))
    {
      usersByName := usersByName[name := user];
      var raised := redis.HMSetUser(name, ToRecord(uuid, user), f.write);
      toResync := if raised then toResync + {name} else toResync - {name};
    }

    /** Removes a user on behalf of `handle`, unless another handle has taken the name meanwhile. */
    method Remove(name: string, handle: int, f: Faults)
      modifies this, redis`users
      ensures State() == old(Removed(State(), uuid, name, handle, f))
    {
      if name in usersByName && usersByName[name].handle != handle {
        return;
      }
      usersByName := usersByName - {name};
      var raised, r := GetRdUser(name, f);
      if !raised && r.Some? && r.value.owner == uuid {
        raised := redis.Delete(name, f.write);
      }
      toResync := if raised then toResync + {name} else toResync - {name};
    }

    method ResyncUser(name: string, f: Faults) returns (raised: bool)
      modifies redis`users
      ensures raised <==> old(Resynced(State(), uuid, name, f)).None?
      ensures State() == if raised then old(State())
                         else old(Resynced(State(), uuid, name, f)).value.(queue := toResync)
    {
      var r;
      raised, r := GetRdUser(name, f);
      if raised {
        return;
      }
      if name in usersByName {
        if r.None? || r.value.owner == uuid {
          raised := redis.HMSetUser(name, ToRecord(uuid, usersByName[name]), f.write);
        }
      } else if r.Some? && r.value.owner == uuid {
        raised := redis.Delete(name, f.write);
      }
    }

    /** One round of the refresh routine. `plan` is the order in which the queued names are visited, with the faults
        that each visit meets; the first fault ends the round. */
    method Refresh(proxyFault: bool, plan: seq<(string, Faults)>)
      requires Covers(plan, toResync) && forall i :: 0 <= i < |plan| ==> plan[i].0 in toResync
      modifies this, redis
      ensures State() == old(Refreshed(State(), uuid, proxyFault, plan))
    {
      if proxyFault {
        return;
      }
      redis.live := redis.live + {uuid};
      ghost var v := State();
      var i := 0;
      while i < |plan|
        invariant i <= |plan| && redis.live == v.live && usersByName == v.mem
        invariant ResyncedAll(State(), uuid, plan[i..]) == ResyncedAll(v, uuid, plan)
      {
        ghost var n := State();
        var raised := ResyncUser(plan[i].0, plan[i].1);
        assert plan[i..][1..] == plan[i + 1..];
        if raised {
          return;
        }
        toResync := toResync - {plan[i].0};
        assert State() == Resynced(n, uuid, plan[i].0, plan[i].1).value;
        i := i + 1;
      }
    }
  }
}
