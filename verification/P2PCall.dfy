/** Peer-to-peer video calls between users of one proxy: a handle registers a name, calls another user, and either
    side hangs up. Users are kept twice: by their handle, and as copies in the in-memory user directory.
    A request is one step, because nothing in it yields to another request. */
module P2PCall {

  import opened Common

  datatype Error =
    | AlreadyRegistered | InvalidElement | RegisterFirst | AlreadyInCall | UseEchoTest | NoSuchUsername
    | MissingSdp | NoCall | PeerBusy | NoPeerUser

  datatype Outcome = Registered | Busy | Calling | Accepted | Updated | HungUp | Raised(error: Error)

  /** The user of a handle. */
  datatype User = User(name: string, incall: bool, peer: string)

  /** The copy of a user in the directory. */
  datatype Entry = Entry(handle: P2PCallHandle, incall: bool, peer: string)

  /** All handles with their users, and the directory, at one instant. */
  datatype Calls = Calls(users: map<P2PCallHandle, Option<User>>, dao: map<string, Entry>)

  datatype Event =
    | Register(h: P2PCallHandle, name: string, valid: bool)
    | Call(h: P2PCallHandle, name: string, valid: bool, sdp: bool)
    | Accept(h: P2PCallHandle, sdp: bool)
    | Update(h: P2PCallHandle, sdp: bool)
    | Hangup(h: P2PCallHandle)

  // ---------- Steps as functions ----------

  function UserOf(st: Calls, h: P2PCallHandle): Option<User> {
    if h in st.users then st.users[h] else None
  }

  /** A handle changes its user and updates the directory. */
  function WithUser(st: Calls, h: P2PCallHandle, u: User): Calls {
    Calls(st.users[h := Some(u)], st.dao[u.name := Entry(h, u.incall, u.peer)])
  }

  /** The handle that the directory gives for a name, with its user. */
  function Peer(st: Calls, name: string): Option<(P2PCallHandle, User)> {
    if name in st.dao && UserOf(st, st.dao[name].handle).Some?
    then Some((st.dao[name].handle, UserOf(st, st.dao[name].handle).value)) else None
  }

  function RegisterStep(st: Calls, h: P2PCallHandle, name: string, valid: bool): (Calls, Outcome) {
    if UserOf(st, h).Some? then (st, Raised(AlreadyRegistered))
    else if !valid then (st, Raised(InvalidElement))
    else (WithUser(st, h, User(name, false, "")), Registered)
  }

  function CallStep(st: Calls, h: P2PCallHandle, name: string, valid: bool, sdp: bool): (Calls, Outcome) {
    match UserOf(st, h)
    case None => (st, Raised(RegisterFirst))
    case Some(u) =>
      if u.incall then (st, Raised(AlreadyInCall))
      else if !valid then (st, Raised(InvalidElement))
      else if name == u.name then (st, Raised(UseEchoTest))
      else if name !in st.dao then (st, Raised(NoSuchUsername))
      else if !sdp then (st, Raised(MissingSdp))
      else if st.dao[name].incall then (st, Busy)
      else
        var n := WithUser(st, h, u.(incall := true, peer := name));
        match Peer(n, name)
        case None => (WithUser(n, h, u.(incall := false, peer := "")), Raised(NoPeerUser))
        case Some((g, v)) =>
          if v.incall then (WithUser(n, h, u.(incall := false, peer := "")), Raised(PeerBusy))
          else (WithUser(n, g, v.(incall := true, peer := u.name)), Calling)
  }

  function HangupStep(st: Calls, h: P2PCallHandle): Calls {
    match UserOf(st, h)
    case None => st
    case Some(u) =>
      if !u.incall then st
      else
        var n := WithUser(st, h, u.(incall := false, peer := ""));
        match Peer(n, u.peer)
        case None => n
        case Some((g, v)) => if v.incall && v.peer == u.name then WithUser(n, g, v.(incall := false, peer := "")) else n
  }

  /** What answering (`accept`) or renegotiating (`set`) comes to; neither changes a user. */
  function AnswerOutcome(st: Calls, h: P2PCallHandle, sdp: bool, accept: bool): Outcome {
    match UserOf(st, h)
    case None => Raised(NoCall)
    case Some(u) =>
      if !u.incall || u.peer == "" then Raised(NoCall)
      else if !sdp then Raised(MissingSdp)
      else if u.peer !in st.dao then Raised(NoSuchUsername)
      else match Peer(st, u.peer)
        case None => Raised(NoPeerUser)
        case Some((_, v)) =>
          if !v.incall || (accept && v.peer != u.name) then Raised(NoCall) else if accept then Accepted else Updated
  }

  function Step(st: Calls, e: Event): Calls {
    match e
    case Register(h, name, valid) => RegisterStep(st, h, name, valid).0
    case Call(h, name, valid, sdp) => CallStep(st, h, name, valid, sdp).0
    case Hangup(h) => HangupStep(st, h)
    case _ => st
  }

  // ---------- Calls form a matching ----------

  /** The directory holds exactly the registered users, each as a true copy; being in a call means having a peer; and
      the peer is another user whose peer is this one. */
  ghost predicate Inv(st: Calls) {
    && (forall h :: h in st.users && st.users[h].Some? ==> UserShape(st, h, st.users[h].value))
    && (forall name :: name in st.dao ==> EntryShape(st, name))
  }

  ghost predicate UserShape(st: Calls, h: P2PCallHandle, u: User) {
    && u.name != "" && u.name in st.dao && st.dao[u.name] == Entry(h, u.incall, u.peer)
    && (u.incall <==> u.peer != "")
    && (u.incall ==> u.peer != u.name && u.peer in st.dao && st.dao[u.peer].incall && st.dao[u.peer].peer == u.name)
  }

  ghost predicate EntryShape(st: Calls, name: string)
    requires name in st.dao
  {
    UserOf(st, st.dao[name].handle) == Some(User(name, st.dao[name].incall, st.dao[name].peer))
  }

  /** The peers of two users of the directory: A's is B exactly if B's is A, and nobody's is itself. */
  lemma Matching(st: Calls, a: string, b: string)
    requires Inv(st) && a in st.dao && b in st.dao
    ensures st.dao[a].peer == b <==> st.dao[b].peer == a
    ensures st.dao[a].peer != a
    ensures st.dao[a].incall <==> st.dao[a].peer != ""
  {
    assert EntryShape(st, a) && EntryShape(st, b);
    assert UserShape(st, st.dao[a].handle, UserOf(st, st.dao[a].handle).value);
    assert UserShape(st, st.dao[b].handle, UserOf(st, st.dao[b].handle).value);
  }

  /** Everybody has at most one caller or callee: two users with the same peer are the same user. */
  lemma PeersAreExclusive(st: Calls, a: string, b: string)
    requires Inv(st) && a in st.dao && b in st.dao && st.dao[a].incall && st.dao[a].peer == st.dao[b].peer
    ensures a == b
  {
    assert EntryShape(st, a) && EntryShape(st, b);
    assert UserShape(st, st.dao[a].handle, UserOf(st, st.dao[a].handle).value);
    assert UserShape(st, st.dao[b].handle, UserOf(st, st.dao[b].handle).value);
  }

  /** Registering keeps the matching exactly if the name is fresh and not empty; the directory does not check. */
  lemma RegisterKeepsInv(st: Calls, h: P2PCallHandle, name: string)
    requires Inv(st) && UserOf(st, h).None?
    ensures Inv(RegisterStep(st, h, name, true).0) <==> name !in st.dao && name != ""
  {
    var n := RegisterStep(st, h, name, true).0;
    if name in st.dao {
      assert EntryShape(st, name);
      var g := st.dao[name].handle;
      assert n.users[g].Some? && !UserShape(n, g, n.users[g].value);
    } else if name == "" {
      assert !UserShape(n, h, n.users[h].value);
    } else {
      forall g | g in n.users && n.users[g].Some? ensures UserShape(n, g, n.users[g].value) {
        assert g != h ==> UserShape(st, g, st.users[g].value);
      }
      forall x | x in n.dao ensures EntryShape(n, x) {
        assert x != name ==> EntryShape(st, x);
      }
    }
  }

  /** In the invariant a call to an idle user succeeds, and pairs the two users. */
  lemma CallKeepsInv(st: Calls, h: P2PCallHandle, name: string, valid: bool, sdp: bool)
    requires Inv(st)
    ensures Inv(CallStep(st, h, name, valid, sdp).0)
    ensures var (n, outcome) := CallStep(st, h, name, valid, sdp);
      && (outcome != Calling ==> n == st)
      && (outcome == Calling ==> UserOf(st, h).Some? && UserOf(n, h) == Some(User(UserOf(st, h).value.name, true, name))
                                 && name in n.dao && n.dao[name].incall && n.dao[name].peer == UserOf(st, h).value.name)
  {
    var n := CallStep(st, h, name, valid, sdp).0;
    if CallStep(st, h, name, valid, sdp).1 == Calling {
      var u := UserOf(st, h).value;
      assert UserShape(st, h, u) && EntryShape(st, name);
      var g := st.dao[name].handle;
      assert g != h;
      forall k | k in n.users && n.users[k].Some? ensures UserShape(n, k, n.users[k].value) {
        if k != h && k != g {
          assert UserShape(st, k, st.users[k].value);
        }
      }
      forall x | x in n.dao ensures EntryShape(n, x) {
        assert EntryShape(st, x);
      }
    } else if UserOf(st, h).Some? && name in st.dao {
      assert UserShape(st, h, UserOf(st, h).value) && EntryShape(st, name);
    }
  }

  /** When a call starts, and when the called user is busy; every other case has its own error. */
  lemma CallStarts(st: Calls, h: P2PCallHandle, name: string, valid: bool, sdp: bool)
    requires Inv(st)
    ensures var outcome := CallStep(st, h, name, valid, sdp).1;
      var may := h in st.users && st.users[h].Some? && !st.users[h].value.incall && valid
          && name != st.users[h].value.name
                 && name in st.dao && sdp;
      && (outcome == Calling <==> may && !st.dao[name].incall)
      && (outcome == Busy <==> may && st.dao[name].incall)
      && (!may ==> outcome == Raised(
           if h !in st.users || st.users[h].None? then RegisterFirst
           else if st.users[h].value.incall then AlreadyInCall
           else if !valid then InvalidElement
           else if name == st.users[h].value.name then UseEchoTest
           else if name !in st.dao then NoSuchUsername else MissingSdp))
  {
    if h in st.users && st.users[h].Some? && name in st.dao {
      assert UserShape(st, h, st.users[h].value) && EntryShape(st, name);
    }
  }

  /** A call that starts pairs caller and called user, here and in the directory, and changes nobody else. */
  lemma CallPairs(st: Calls, h: P2PCallHandle, name: string, valid: bool, sdp: bool)
    requires Inv(st) && CallStep(st, h, name, valid, sdp).1 == Calling
    ensures h in st.users && st.users[h].Some? && name in st.dao && st.dao[name].handle != h
    ensures var (u, n, g) := (st.users[h].value, CallStep(st, h, name, valid, sdp).0, st.dao[name].handle);
      && n.users == st.users[h := Some(User(u.name, true, name))][g := Some(User(name, true, u.name))]
      && n.dao == st.dao[u.name := Entry(h, true, name)][name := Entry(g, true, u.name)]
  {
    assert UserShape(st, h, st.users[h].value) && EntryShape(st, name);
  }

  /** A registration is refused only to a user that has one, or if the request is invalid; else the name is the user's,
      and idle. */
  lemma RegisterIs(st: Calls, h: P2PCallHandle, name: string, valid: bool)
    ensures var (n, outcome) := RegisterStep(st, h, name, valid);
      && (outcome == Registered <==> (h !in st.users || st.users[h].None?) && valid)
      && (outcome == Registered ==> n.users == st.users[h := Some(User(name, false, ""))]
                                    && n.dao == st.dao[name := Entry(h, false, "")])
      && (outcome != Registered ==> n == st)
      && (outcome != Registered ==>
            outcome == Raised(if h in st.users && st.users[h].Some? then AlreadyRegistered else InvalidElement))
  {
  }

  /** Without a call there is nothing to answer and nothing to hang up. */
  lemma NoCallNoAnswer(st: Calls, h: P2PCallHandle, sdp: bool, accept: bool)
    requires h !in st.users || st.users[h].None? || !st.users[h].value.incall
    ensures AnswerOutcome(st, h, sdp, accept) == Raised(NoCall) && HangupStep(st, h) == st
  {
  }

  /** Hanging up frees both users and nobody else. */
  lemma HangupKeepsInv(st: Calls, h: P2PCallHandle)
    requires Inv(st)
    ensures Inv(HangupStep(st, h))
    ensures UserOf(st, h).Some? && UserOf(st, h).value.incall ==>
              var (u, n) := (UserOf(st, h).value, HangupStep(st, h));
              && u.peer in st.dao
              && n.dao == st.dao[u.name := Entry(h, false, "")][u.peer := Entry(st.dao[u.peer].handle, false, "")]
  {
    if UserOf(st, h).Some? && UserOf(st, h).value.incall {
      var u, n := UserOf(st, h).value, HangupStep(st, h);
      assert UserShape(st, h, u) && EntryShape(st, u.peer);
      HangupFrees(st, h);
      forall k | k in n.users && n.users[k].Some? ensures UserShape(n, k, n.users[k].value) {
        if k != h && k != st.dao[u.peer].handle {
          assert UserShape(st, k, st.users[k].value);
          assert st.users[k].value.incall ==> EntryShape(st, st.users[k].value.peer);
        }
      }
      forall x | x in n.dao ensures EntryShape(n, x) {
        assert EntryShape(st, x);
      }
    }
  }

  /** Both users of a call are freed. */
  lemma HangupFrees(st: Calls, h: P2PCallHandle)
    requires Inv(st) && UserOf(st, h).Some? && UserOf(st, h).value.incall
    ensures var (u, n) := (UserOf(st, h).value, HangupStep(st, h));
      && u.peer in st.dao && st.dao[u.peer].handle != h
      && n == Calls(st.users[h := Some(User(u.name, false, ""))][st.dao[u.peer].handle := Some(User(u.peer, false,
         ""))],
                    st.dao[u.name := Entry(h, false, "")][u.peer := Entry(st.dao[u.peer].handle, false, "")])
  {
    var u := UserOf(st, h).value;
    assert UserShape(st, h, u) && EntryShape(st, u.peer);
    var g := st.dao[u.peer].handle;
    assert UserShape(st, g, UserOf(st, g).value) && g != h;
  }

  /** In the invariant an answer or an update always reaches the peer. */
  lemma AnswerReachesPeer(st: Calls, h: P2PCallHandle, sdp: bool, accept: bool)
    requires Inv(st) && UserOf(st, h).Some? && UserOf(st, h).value.incall
    ensures AnswerOutcome(st, h, sdp, accept) == if !sdp then Raised(MissingSdp) else if accept then Accepted
              else Updated
  {
    var u := UserOf(st, h).value;
    assert UserShape(st, h, u) && EntryShape(st, u.peer);
  }

  /** A call that raises leaves the caller idle, in any state whatsoever. */
  lemma FailedCallRestores(st: Calls, h: P2PCallHandle, name: string, valid: bool, sdp: bool)
    requires UserOf(st, h).Some? && !UserOf(st, h).value.incall && UserOf(st, h).value.peer == ""
    ensures CallStep(st, h, name, valid, sdp).1.Raised? ==>
              UserOf(CallStep(st, h, name, valid, sdp).0, h) == UserOf(st, h)
  {
  }

  function Run(st: Calls, es: seq<Event>): Calls
    decreases |es|
  {
    if es == [] then st else Run(Step(st, es[0]), es[1..])
  }

  /** Names are registered only while they are free. */
  ghost predicate FreshNames(st: Calls, es: seq<Event>)
    decreases |es|
  {
    es == [] || ((es[0].Register? && es[0].valid ==> es[0].name !in st.dao && es[0].name != "")
      && FreshNames(Step(st, es[0]), es[1..]))
  }

  /** Over all runs the calls form a matching and the directory mirrors the handles. */
  lemma {:induction false} MatchingRun(st: Calls, es: seq<Event>)
    requires Inv(st) && FreshNames(st, es)
    ensures Inv(Run(st, es))
    decreases |es|
  {
    if es != [] {
      match es[0] {
        case Register(h, name, valid) =>
          if UserOf(st, h).None? && valid { RegisterKeepsInv(st, h, name); }
        case Call(h, name, valid, sdp) => CallKeepsInv(st, h, name, valid, sdp);
        case Hangup(h) => HangupKeepsInv(st, h);
        case _ =>
      }
      MatchingRun(Step(st, es[0]), es[1..]);
    }
  }

  // ---------- The directory and the handles ----------

  /** The in-memory user directory; it stores copies. */
  class MemVideoCallUserDao {
    var usersByName: map<string, Entry>

    constructor ()
      ensures usersByName == map[]
    {
      usersByName := map[];
    }

    method GetByUsername(name: string) returns (r: Option<Entry>)
      ensures r == if name in usersByName then Some(usersByName[name]) else None
    {
      return if name in usersByName then Some(usersByName[name]) else None;
    }

    method Add(name: string, e: Entry)
      modifies this
      ensures usersByName == old(usersByName)[name := e]
    {
      usersByName := usersByName[name := e];
    }

    method Update(name: string, e: Entry)
      modifies this
      ensures usersByName == old(usersByName)[name := e]
    {
      usersByName := usersByName[name := e];
    }

    /** Removes a user, unless another handle has taken the name meanwhile. */
    method Remove(name: string, handle: P2PCallHandle)
      modifies this
      ensures usersByName == if name in old(usersByName) && old(usersByName)[name].handle != handle
                             then old(usersByName) else old(usersByName) - {name}
    {
      if name in usersByName && usersByName[name].handle != handle {
        return;
      }
      usersByName := usersByName - {name};
    }
  }

  class P2PCallPlugin {
    const userDao: MemVideoCallUserDao
    ghost var handles: set<P2PCallHandle>

    ghost function State(): Calls
      reads this, userDao, handles`user
    {
      Calls(map h | h in handles :: h.user, userDao.usersByName)
    }

    /** The directory points only to handles of this plugin. */
    ghost predicate Valid()
      reads this, userDao
    {
      && (forall h :: h in handles ==> h.plugin == this)
      && (forall name :: name in userDao.usersByName ==> userDao.usersByName[name].handle in handles)
    }

    lemma PeerEntry(name: string)
      requires Valid() && name in userDao.usersByName
      ensures var g := userDao.usersByName[name].handle;
        g in handles && g.plugin == this
        && Peer(State(), name) == if g.user.None? then None else Some((g, g.user.value))
    {
    }

    constructor ()
      ensures Valid() && Inv(State()) && handles == {}
    {
      userDao := new MemVideoCallUserDao();
      handles := {};
    }
  }

  class P2PCallHandle {
    const plugin: P2PCallPlugin
    var user: Option<User>
    var trickleHolding: bool

    /** A new handle has no user. */
    constructor (p: P2PCallPlugin)
      requires p.Valid()
      modifies p
      ensures plugin == p && p.handles == old(p.handles) + {this} && p.Valid() && user == None && !trickleHolding
      ensures p.State() == old(p.State()).(users := old(p.State()).users[this := None])
    {
      plugin, user, trickleHolding := p, None, false;
      new;
      p.handles := p.handles + {this};
      assert p.State().users == old(p.State()).users[this := None];
    }

    /** Changes the user of this handle and its copy in the directory. */
    method SetUser(u: User)
      requires this in plugin.handles && plugin.Valid()
      modifies this`user, plugin.userDao
      ensures plugin.Valid() && plugin.State() == WithUser(old(plugin.State()), this, u) && user == Some(u)
      ensures plugin.userDao.usersByName == old(plugin.userDao.usersByName)[u.name := Entry(this, u.incall, u.peer)]
    {
      user := Some(u);
      plugin.userDao.Update(u.name, Entry(this, u.incall, u.peer));
      assert plugin.State().users == old(plugin.State()).users[this := Some(u)];
    }

    method DoRegister(name: string, valid: bool) returns (outcome: Outcome)
      requires this in plugin.handles && plugin.Valid()
      modifies this`user, plugin.userDao
      ensures plugin.Valid() && (plugin.State(), outcome) == RegisterStep(old(plugin.State()), this, name, valid)
    {
      if user.Some? {
        return Raised(AlreadyRegistered);
      }
      if !valid {
        return Raised(InvalidElement);
      }
      SetUser(User(name, false, ""));
      return Registered;
    }

    /** An `incomingcall` event from user `from` arrives; a busy user raises. */
    method OnIncomingCall(from: string) returns (raised: Option<Error>)
      requires this in plugin.handles && plugin.Valid()
      modifies this`user, plugin.userDao
      ensures plugin.Valid()
      ensures raised == if old(user).None? then Some(NoPeerUser) else if old(user).value.incall then Some(PeerBusy)
                else None
      ensures plugin.State() == if raised.Some? then old(plugin.State())
                                else WithUser(old(plugin.State()), this, old(user).value.(incall := true, peer := from))
    {
      if user.None? {
        return Some(NoPeerUser);
      }
      if user.value.incall {
        return Some(PeerBusy);
      }
      SetUser(user.value.(incall := true, peer := from));
      return None;
    }

    /** A `hangup` event from user `from` arrives; it frees this user only if `from` is its peer. */
    method OnHangup(from: string)
      requires this in plugin.handles && plugin.Valid()
      modifies this`user, plugin.userDao
      ensures plugin.Valid()
      ensures plugin.State() == if old(user).Some? && old(user).value.incall && old(user).value.peer == from
                                then WithUser(old(plugin.State()), this, old(user).value.(incall := false, peer := ""))
                                else old(plugin.State())
    {
      if user.Some? && user.value.incall && user.value.peer == from {
        SetUser(user.value.(incall := false, peer := ""));
      }
    }

    method DoCall(name: string, valid: bool, sdp: bool) returns (outcome: Outcome)
      requires this in plugin.handles && plugin.Valid()
      modifies plugin.handles`user, this`trickleHolding, plugin.userDao
      ensures plugin.Valid() && (plugin.State(), outcome) == CallStep(old(plugin.State()), this, name, valid, sdp)
      ensures old(trickleHolding) == false ==> trickleHolding == false
    {
      if user.None? {
        return Raised(RegisterFirst);
      }
      var u := user.value;
      if u.incall {
        return Raised(AlreadyInCall);
      }
      if !valid {
        return Raised(InvalidElement);
      }
      if name == u.name {
        return Raised(UseEchoTest);
      }
      var peer := plugin.userDao.GetByUsername(name);
      if peer.None? {
        return Raised(NoSuchUsername);
      }
      if !sdp {
        return Raised(MissingSdp);
      }
      if peer.value.incall {
        return Busy;
      }
      outcome := StartCall(u, name);
    }

    /** The calling process: marks the caller, tells the peer, and takes the mark back if the peer raises. */
    method StartCall(u: User, name: string) returns (outcome: Outcome)
      requires this in plugin.handles && plugin.Valid() && user == Some(u) && name != u.name
      requires name in plugin.userDao.usersByName
      modifies plugin.handles`user, this`trickleHolding, plugin.userDao
      ensures plugin.Valid() && !trickleHolding
      ensures var n := WithUser(old(plugin.State()), this, u.(incall := true, peer := name));
        (plugin.State(), outcome) ==
          match Peer(n, name)
          case None => (WithUser(n, this, u.(incall := false, peer := "")), Raised(NoPeerUser))
          case Some((g, v)) =>
            if v.incall then (WithUser(n, this, u.(incall := false, peer := "")), Raised(PeerBusy))
            else (WithUser(n, g, v.(incall := true, peer := u.name)), Calling)
    {
      hide *;
      trickleHolding := true;
      SetUser(u.(incall := true, peer := name));
      plugin.PeerEntry(name);
      var peer := plugin.userDao.GetByUsername(name);
      var raised := peer.value.handle.OnIncomingCall(u.name);
      trickleHolding := false;
      if raised.Some? {
        SetUser(u.(incall := false, peer := ""));
        return Raised(raised.value);
      }
      return Calling;
    }

    method DoHangup()
      requires this in plugin.handles && plugin.Valid()
      modifies plugin.handles`user, plugin.userDao
      ensures plugin.Valid() && plugin.State() == HangupStep(old(plugin.State()), this)
    {
      if user.None? || !user.value.incall {
        return;
      }
      var u := user.value;
      SetUser(u.(incall := false, peer := ""));
      var peer := plugin.userDao.GetByUsername(u.peer);
      if peer.Some? {
        peer.value.handle.OnHangup(u.name);
      }
    }

    /** Answers a call (`accept`) or renegotiates it: the peer is told, and raises if it is not in this call. */
    method DoAnswer(sdp: bool, accept: bool) returns (outcome: Outcome)
      requires this in plugin.handles && plugin.Valid()
      ensures outcome == AnswerOutcome(plugin.State(), this, sdp, accept)
    {
      if user.None? || !user.value.incall || user.value.peer == "" {
        return Raised(NoCall);
      }
      if !sdp {
        return Raised(MissingSdp);
      }
      var peer := plugin.userDao.GetByUsername(user.value.peer);
      if peer.None? {
        return Raised(NoSuchUsername);
      }
      var v := peer.value.handle.user;
      if v.None? {
        return Raised(NoPeerUser);
      }
      if !v.value.incall || (accept && v.value.peer != user.value.name) {
        return Raised(NoCall);
      }
      return if accept then Accepted else Updated;
    }
  }
}
