/** The sweeper of idle videorooms on a Janus server: it scans the room list again and again and destroys the
    rooms that januscloud created and that were idle in every scan for longer than a timeout. */
module Sweeper {

  import opened Common

  /** A participant as the server lists it; absent flags are false. */
  datatype Participant = Participant(dummy: bool, remote: bool)

  /** One entry of the room list, with the answer to `listparticipants` for it (`None`: the request failed). */
  datatype RoomInfo = RoomInfo(room: Option<int>, description: Option<string>, numParticipants: Option<int>,
                               listing: Option<seq<Participant>>)

  predicate StartsWith(s: string, prefix: string) {
    |prefix| <= |s| && s[..|prefix|] == prefix
  }

  function RoomId(info: RoomInfo): int { if info.room.Some? then info.room.value else 0 }

  /** Somebody takes part who is neither a dummy nor a remote publisher. */
  predicate InUse(listing: seq<Participant>) {
    exists i :: 0 <= i < |listing| && !listing[i].dummy && !listing[i].remote
  }

  /** A scan sees this room idle: it is one of januscloud's rooms and nobody takes part. A room whose
      participants cannot be listed is not idle. */
  predicate SeenIdle(info: RoomInfo, filter: string) {
    && RoomId(info) != 0
    && StartsWith(if info.description.Some? then info.description.value else "", filter)
    && ((info.numParticipants.Some? && info.numParticipants.value <= 0)
        || (info.listing.Some? && !InUse(info.listing.value)))
  }

  /** The rooms that a scan sees idle. */
  function IdleIds(rooms: seq<RoomInfo>, filter: string): set<int> {
    set i | 0 <= i < |rooms| && SeenIdle(rooms[i], filter) :: RoomId(rooms[i])
  }

  /** A room is seen idle exactly if some entry of the list has its id, has a description that begins with the filter,
      and either counts no participant or was listed with dummies and remote publishers only. */
  lemma IdleIdsAre(rooms: seq<RoomInfo>, filter: string, r: int)
    ensures r in IdleIds(rooms, filter) <==> r != 0 && exists i ::
      (&& 0 <= i < |rooms| && rooms[i].room == Some(r)
       && (if rooms[i].description.Some?
           then |filter| <= |rooms[i].description.value| && rooms[i].description.value[..|filter|] == filter
           else filter == "")
       && ((rooms[i].numParticipants.Some? && rooms[i].numParticipants.value <= 0)
           || (rooms[i].listing.Some? && forall p :: p in rooms[i].listing.value ==> p.dummy || p.remote)))
  {
    forall i | 0 <= i < |rooms| && rooms[i].listing.Some?
      ensures InUse(rooms[i].listing.value) <==> exists p :: p in rooms[i].listing.value && !p.dummy && !p.remote
    {
      InUseIs(rooms[i].listing.value);
    }
  }

  lemma InUseIs(listing: seq<Participant>)
    ensures InUse(listing) <==> exists p :: p in listing && !p.dummy && !p.remote
  {
    if p :| p in listing && !p.dummy && !p.remote {
      var i :| 0 <= i < |listing| && listing[i] == p;
    }
  }

  // ---------- The history of scans ----------

  /** A scan that ran to the end: when, and which rooms it saw idle. */
  datatype Scan = Scan(now: Time, idle: set<int>)

  predicate TimedOut(idleRooms: map<int, int>, r: int, now: Time, timeout: int) {
    r in idleRooms && idleRooms[r] != 0 && now - idleRooms[r] > timeout
  }

  /** The idle table after a scan: a room that is not idle or has timed out is dropped, a new one starts now. */
  function After(idleRooms: map<int, int>, s: Scan, timeout: int): map<int, int> {
    map r | r in s.idle && !TimedOut(idleRooms, r, s.now, timeout) ::
      if r in idleRooms && idleRooms[r] != 0 then idleRooms[r] else s.now as int
  }

  /** The idle table after a history of scans. */
  function Table(h: seq<Scan>, timeout: int): map<int, int> {
    if h == [] then map[] else After(Table(h[..|h| - 1], timeout), h[|h| - 1], timeout)
  }

  /** Scan `k` of the history destroys room `r`. */
  predicate Destroys(h: seq<Scan>, timeout: int, k: nat, r: int)
    requires k < |h|
  {
    r in h[k].idle && TimedOut(Table(h[..k], timeout), r, h[k].now, timeout)
  }

  /** Room `r` was seen idle in every scan from `j` on, and was not destroyed in between. */
  predicate IdleSince(h: seq<Scan>, timeout: int, j: nat, r: int) {
    forall k :: j <= k < |h| ==> r in h[k].idle && !Destroys(h, timeout, k, r)
  }

  /** `j` is the first scan of the current unbroken idle run of room `r`. */
  predicate RunStart(h: seq<Scan>, timeout: int, j: nat, r: int) {
    && j < |h| && IdleSince(h, timeout, j, r)
    && (j > 0 ==> r !in h[j - 1].idle || Destroys(h, timeout, j - 1, r))
  }

  lemma DestroysEarlier(h: seq<Scan>, timeout: int, n: nat, k: nat, r: int)
    requires k < n <= |h|
    ensures Destroys(h[..n], timeout, k, r) == Destroys(h, timeout, k, r)
  {
    assert h[..n][..k] == h[..k];
  }

  /** The table always holds the start of the current unbroken idle run, for exactly the rooms that are in one. */
  lemma {:induction false} TableIsRunStart(h: seq<Scan>, timeout: int, r: int)
    ensures r in Table(h, timeout) <==> exists j :: 0 <= j < |h| && RunStart(h, timeout, j, r)
    ensures r in Table(h, timeout) ==>
              exists j :: 0 <= j < |h| && RunStart(h, timeout, j, r) && Table(h, timeout)[r] == h[j].now
  {
    if h != [] {
      var n := |h| - 1;
      var g := h[..n];
      TableIsRunStart(g, timeout, r);
      if r in Table(h, timeout) {
        if r in Table(g, timeout) {
          var j :| 0 <= j < |g| && RunStart(g, timeout, j, r) && Table(g, timeout)[r] == g[j].now;
          RunExtends(h, timeout, j, r);
        } else {
          RunBegins(h, timeout, r);
        }
      } else {
        assert r !in h[n].idle || Destroys(h, timeout, n, r);
        assert !IdleSince(h, timeout, n, r);
        assert forall j :: 0 <= j < |h| ==> !RunStart(h, timeout, j, r);
      }
    }
  }

  lemma RunExtends(h: seq<Scan>, timeout: int, j: nat, r: int)
    requires h != [] && r in h[|h| - 1].idle && !Destroys(h, timeout, |h| - 1, r)
    requires j < |h| - 1 && RunStart(h[..|h| - 1], timeout, j, r)
    ensures RunStart(h, timeout, j, r)
  {
    forall k | 0 <= k < |h| - 1
      ensures Destroys(h[..|h| - 1], timeout, k, r) == Destroys(h, timeout, k, r) && h[..|h| - 1][k] == h[k]
    {
      DestroysEarlier(h, timeout, |h| - 1, k, r);
    }
  }

  lemma RunBegins(h: seq<Scan>, timeout: int, r: int)
    requires h != [] && r in h[|h| - 1].idle && !Destroys(h, timeout, |h| - 1, r)
    requires r !in Table(h[..|h| - 1], timeout)
    ensures RunStart(h, timeout, |h| - 1, r)
  {
    var n := |h| - 1;
    if n > 0 {
      DestroysEarlier(h, timeout, n, n - 1, r);
      RunGoesOn(h[..n], timeout, r);
    }
  }

  lemma RunGoesOn(g: seq<Scan>, timeout: int, r: int)
    requires g != []
    ensures r in Table(g, timeout) <==> r in g[|g| - 1].idle && !Destroys(g, timeout, |g| - 1, r)
  {
    assert g[..|g| - 1] == g[..|g| - 1];
  }

  /** Safety: a room destroyed in a scan was seen idle in every completed scan of a period longer than the timeout. */
  lemma DestroyedOnlyIfIdle(h: seq<Scan>, timeout: int, n: nat, r: int)
    requires n < |h| && Destroys(h, timeout, n, r)
    ensures exists j :: 0 <= j < n && h[n].now - h[j].now > timeout && forall k :: j <= k <= n ==> r in h[k].idle
  {
    var g := h[..n];
    TableIsRunStart(g, timeout, r);
    var j :| 0 <= j < |g| && RunStart(g, timeout, j, r) && Table(g, timeout)[r] == g[j].now;
    assert forall k :: j <= k < n ==> g[k] == h[k];
    assert h[n].now - h[j].now > timeout && forall k :: j <= k <= n ==> r in h[k].idle;
  }

  lemma AllWereIdle(h: seq<Scan>, timeout: int, gone: seq<int>)
    requires h != [] && forall r :: r in gone ==> Destroys(h, timeout, |h| - 1, r)
    ensures forall r :: r in gone ==> exists j :: 0 <= j < |h| && h[|h| - 1].now - h[j].now > timeout
                                                  && forall k :: j <= k < |h| ==> r in h[k].idle
  {
    hide Destroys;
    forall r | r in gone
      ensures exists j :: 0 <= j < |h| && h[|h| - 1].now - h[j].now > timeout
                          && forall k :: j <= k < |h| ==> r in h[k].idle
    {
      DestroyedOnlyIfIdle(h, timeout, |h| - 1, r);
    }
  }

  /** One more scan: the table that follows, and which rooms the scan destroys. */
  lemma NextScan(h: seq<Scan>, s: Scan, timeout: int)
    ensures Table(h + [s], timeout) == After(Table(h, timeout), s, timeout)
    ensures forall r :: Destroys(h + [s], timeout, |h|, r) <==>
                        r in s.idle && TimedOut(Table(h, timeout), r, s.now, timeout)
  {
    assert (h + [s])[..|h|] == h;
  }

  predicate Ordered(h: seq<Scan>) {
    forall i, j :: 0 <= i <= j < |h| ==> h[i].now <= h[j].now
  }

  /** The other direction: a room seen idle in every scan of a period longer than the timeout is destroyed in it. */
  lemma IdleIsDestroyed(h: seq<Scan>, timeout: int, j: nat, n: nat, r: int)
    requires j < n < |h| && Ordered(h) && h[n].now - h[j].now > timeout
    requires forall k :: j <= k <= n ==> r in h[k].idle
    ensures exists k :: j <= k <= n && Destroys(h, timeout, k, r)
  {
    if forall k :: j <= k <= n ==> !Destroys(h, timeout, k, r) {
      KeptSince(h, timeout, j, n - 1, r);
      assert h[..n - 1 + 1] == h[..n];
      assert Destroys(h, timeout, n, r);
    }
  }

  lemma {:induction false} KeptSince(h: seq<Scan>, timeout: int, j: nat, m: nat, r: int)
    requires j <= m < |h| && Ordered(h)
    requires forall k :: j <= k <= m ==> r in h[k].idle && !Destroys(h, timeout, k, r)
    ensures r in Table(h[..m + 1], timeout) && Table(h[..m + 1], timeout)[r] <= h[j].now
    ensures Table(h[..m + 1], timeout)[r] > 0
  {
    var g := h[..m + 1];
    TableIsRunStart(g, timeout, r);
    assert g[..m] == h[..m];
    assert Destroys(g, timeout, m, r) == Destroys(h, timeout, m, r);
    RunGoesOn(g, timeout, r);
    var i :| 0 <= i < |g| && RunStart(g, timeout, i, r) && Table(g, timeout)[r] == g[i].now;
    hide Table, Destroys;
    StartsBefore(h, timeout, j, m, r, i);
    assert g[i].now == h[i].now;
  }

  /** The current run started no later than a scan since which the room has been idle. */
  lemma StartsBefore(h: seq<Scan>, timeout: int, j: nat, m: nat, r: int, i: nat)
    requires j <= m < |h| && RunStart(h[..m + 1], timeout, i, r)
    requires forall k :: j <= k <= m ==> r in h[k].idle && !Destroys(h, timeout, k, r)
    ensures i <= j
  {
    hide Destroys;
    if i > 0 {
      DestroysEarlier(h, timeout, m + 1, i - 1, r);
      assert h[..m + 1][i - 1] == h[i - 1];
    }
  }

  // ---------- The sweeper ----------

  datatype Status = Normal | Maintenance | HighWaterMark | Abnormal

  class VideoroomSweeper {
    const filter: string
    const destroyTimeout: int
    var destroyed: bool
    var status: Status
    var connected: bool
    var idleRooms: map<int, int>
    ghost var history: seq<Scan>

    /** The idle table is what the completed scans so far amount to. */
    ghost predicate Valid()
      reads this
    {
      idleRooms == Table(history, destroyTimeout)
    }

    constructor (prefix: string, timeout: int)
      ensures Valid() && history == [] && filter == prefix && destroyTimeout == timeout && status == Abnormal
    {
      filter, destroyTimeout := prefix, timeout;
      destroyed, status, connected, idleRooms, history := false, Abnormal, false, map[], [];
    }

    /** Counts the participants that are neither dummies nor remote; a failed request means "not idle". */
    method IsIdleRoom(listing: Option<seq<Participant>>) returns (idle: bool)
      ensures idle <==> listing.Some? && !InUse(listing.value)
    {
      if listing.None? {
        return false;
      }
      var valid, i := 0, 0;
      while i < |listing.value|
        invariant 0 <= i <= |listing.value| && valid >= 0
        invariant valid > 0 <==> InUse(listing.value[..i])
      {
        var p := listing.value[i];
        assert listing.value[..i + 1] == listing.value[..i] + [p];
        assert InUse(listing.value[..i + 1]) <==> InUse(listing.value[..i]) || (!p.dummy && !p.remote);
        if !p.dummy && !p.remote {
          valid := valid + 1;
        }
        i := i + 1;
      }
      assert listing.value[..i] == listing.value;
      return valid == 0;
    }

    /** The checks of one entry of the room list. */
    method LooksIdle(info: RoomInfo) returns (idle: bool)
      ensures idle == SeenIdle(info, filter)
    {
      if RoomId(info) == 0 {
        return false;
      }
      if !StartsWith(if info.description.Some? then info.description.value else "", filter) {
        return false;
      }
      if info.numParticipants.None? || info.numParticipants.value > 0 {
        idle := IsIdleRoom(info.listing);
        return;
      }
      return true;
    }

    /** Step 2 of a scan: which rooms are idle, and which of them have timed out. */
    method Classify(rooms: seq<RoomInfo>, now: Time) returns (idle: map<int, int>, expired: seq<int>)
      ensures idle == After(idleRooms, Scan(now, IdleIds(rooms, filter)), destroyTimeout)
      ensures forall r :: r in expired <==> r in IdleIds(rooms, filter) && TimedOut(idleRooms, r, now, destroyTimeout)
    {
      hide IdleIds, SeenIdle;
      idle, expired := map[], [];
      NoRoomYet(rooms, filter);
      var i := 0;
      while i < |rooms|
        invariant i <= |rooms|
        invariant idle == After(idleRooms, Scan(now, IdleIds(rooms[..i], filter)), destroyTimeout)
        invariant forall r :: r in expired <==>
                    r in IdleIds(rooms[..i], filter) && TimedOut(idleRooms, r, now, destroyTimeout)
      {
        var room := RoomId(rooms[i]);
        OneMoreRoom(rooms, i, filter);
        var idleNow := LooksIdle(rooms[i]);
        i := i + 1;
        if !idleNow {
          continue;
        }
        var since := if room in idleRooms then idleRooms[room] else 0;
        if since == 0 {
          idle := idle[room := now];
        } else if now - since > destroyTimeout {
          expired := expired + [room];
        } else {
          idle := idle[room := since];
        }
      }
      assert rooms[..i] == rooms;
    }

    /** One scan. `reply` is the room list, `None` if connecting or listing fails; the first `answered` destroy
        requests reach the server, the next one raises. Rooms are destroyed only after having been seen idle in
        every completed scan of a period longer than the timeout. */
    method CheckIdle(reply: Option<seq<RoomInfo>>, now: Time, answered: nat) returns (gone: seq<int>)
      requires Valid()
      modifies this
      ensures Valid()
      ensures old(destroyed) || old(status) == Abnormal || reply.None? ==> history == old(history) && gone == []
      ensures !old(destroyed) && old(status) != Abnormal && reply.Some? ==>
                history == old(history) + [Scan(now, IdleIds(reply.value, filter))]
      ensures forall r :: r in gone ==> history != [] && Destroys(history, destroyTimeout, |history| - 1, r)
      ensures forall r :: r in gone ==> exists j :: 0 <= j < |history| && now - history[j].now > destroyTimeout
                                                    && forall k :: j <= k < |history| ==> r in history[k].idle
      ensures forall r :: r in gone ==> reply.Some? && r in IdleIds(reply.value, filter)
      ensures |gone| <= answered
      ensures !old(destroyed) && old(status) != Abnormal && reply.Some? ==> connected || |gone| == answered
      ensures !old(destroyed) && old(status) != Abnormal && reply.Some? && connected ==>
                forall r :: r in gone <==> Destroys(history, destroyTimeout, |history| - 1, r)
    {
      gone := [];
      if destroyed || status == Abnormal {
        return;
      }
      if reply.None? {
        connected := false;
        return;
      }
      hide *;
      connected := true;
      var idle, expired := Classify(reply.value, now);
      NextScan(history, Scan(now, IdleIds(reply.value, filter)), destroyTimeout);
      idleRooms := idle;
      history := history + [Scan(now, IdleIds(reply.value, filter))];
      gone := if answered < |expired| then expired[..answered] else expired;
      if answered < |expired| {
        connected := false;
      }
      assert forall r :: r in gone ==> r in expired;
      AllWereIdle(history, destroyTimeout, gone);
    }

    /** The monitor reports a new status of the server. */
    method OnStatusChanged(s: Status)
      requires Valid()
      modifies this`status
      ensures Valid() && status == s
    {
      status := s;
    }
  }

  lemma NoRoomYet(rooms: seq<RoomInfo>, filter: string)
    ensures IdleIds(rooms[..0], filter) == {}
  {
  }

  lemma OneMoreRoom(rooms: seq<RoomInfo>, i: nat, filter: string)
    requires i < |rooms|
    ensures IdleIds(rooms[..i + 1], filter) == IdleIds(rooms[..i], filter) + (if SeenIdle(rooms[i], filter)
              then {RoomId(rooms[i])} else {})
  {
    var a, b := IdleIds(rooms[..i + 1], filter), IdleIds(rooms[..i], filter);
    assert rooms[..i + 1] == rooms[..i] + [rooms[i]];
    forall r | r in a ensures r in b + (if SeenIdle(rooms[i], filter) then {RoomId(rooms[i])} else {}) {
      var k :| 0 <= k <= i && SeenIdle(rooms[..i + 1][k], filter) && r == RoomId(rooms[..i + 1][k]);
      assert k < i ==> rooms[..i][k] == rooms[..i + 1][k];
    }
    forall r | r in b + (if SeenIdle(rooms[i], filter) then {RoomId(rooms[i])} else {}) ensures r in a {
      if r in b {
        var k :| 0 <= k < i && SeenIdle(rooms[..i][k], filter) && r == RoomId(rooms[..i][k]);
        assert rooms[..i + 1][k] == rooms[..i][k];
      } else {
        assert rooms[..i + 1][i] == rooms[i];
      }
    }
  }
}
