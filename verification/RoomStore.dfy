/** Storing the configuration of a videoroom in a Redis hash and loading it back. The attributes of a room object
    are a map from names to values, as `to_redis_hash` sees them. */
module RoomStore {

  import opened Common

  /** The attributes that are loaded back, and others: internal ones, and public ones that are stored only. */
  datatype Name =
    | RoomId | Description | Secret | Pin | IsPrivate | RequirePvtId | Publishers | Bitrate | BitrateCap | FirFreq
    | AudioCodec | VideoCodec | OpusFec | OpusDtx | AudioLevelExt | AudioLevelEvent | AudioActivePackets
    | AudioLevelAverage | VideoOrientExt | PlayoutDelayExt | TransportWideCcExt | Record | RecDir | NotifyJoining
    | LockRecord | RequireE2ee | Vp9Profile | H264Profile | MinPublisherOneBackend | CTime | UTime
    | Internal(name: string) | StoredOnly(name: string)

  datatype Value = Nothing | Flag(b: bool) | Number(i: int) | Text(s: string) | Words(l: seq<string>) | Float(r: real)

  type Attributes = map<Name, Value>

  type Hash = map<Name, string>

  /** How the client prints a float, how Python reads it back, and the current time. */
  datatype Floats = Floats(print_: real -> string, parse: string -> Option<real>, now: real)

  /** Python's `float(repr(x)) == x`, for a value that is a float. */
  predicate ReadsBack(env: Floats, v: Value) {
    v.Float? ==> env.parse(env.print_(v.r)) == Some(v.r)
  }

  /** The floats among the attributes read back as printed. */
  ghost predicate Faithful(env: Floats, a: Attributes) {
    forall n :: n in a ==> ReadsBack(env, a[n])
  }

  // ---------- Printing and parsing numbers ----------

  function DigitChar(d: nat): char
    requires d < 10
  {
    '0' + d as char
  }

  function NatText(n: nat): string {
    if n < 10 then [DigitChar(n)] else NatText(n / 10) + [DigitChar(n % 10)]
  }

  function IntText(i: int): string {
    if i < 0 then "-" + NatText(-i) else NatText(i)
  }

  function ParseNat(s: string): Option<nat> {
    if s == "" || !('0' <= s[|s| - 1] <= '9') then None
    else
      var d := (s[|s| - 1] - '0') as int;
      if |s| == 1 then Some(d)
      else match ParseNat(s[..|s| - 1]) case None => None case Some(n) => Some(10 * n + d)
  }

  function ParseInt(s: string): Option<int> {
    if s != "" && s[0] == '-' then (match ParseNat(s[1..]) case None => None case Some(n) => Some(-(n as int)))
    else match ParseNat(s) case None => None case Some(n) => Some(n as int)
  }

  lemma {:induction false} ParseNatText(n: nat)
    ensures ParseNat(NatText(n)) == Some(n) && NatText(n) != "" && NatText(n)[0] != '-'
  {
    if n >= 10 {
      ParseNatText(n / 10);
      var s := NatText(n);
      assert s[..|s| - 1] == NatText(n / 10);
      assert (s[|s| - 1] - '0') as int == n % 10;
    }
  }

  /** Every integer reads back as printed. */
  lemma IntRoundTrip(i: int)
    ensures ParseInt(IntText(i)) == Some(i)
  {
    if i < 0 {
      ParseNatText(-i);
      assert IntText(i)[1..] == NatText(-i);
    } else {
      ParseNatText(i);
    }
  }

  // ---------- Storing ----------

  function Stored(env: Floats, v: Value): string {
    match v
    case Nothing => ""
    case Flag(b) => if b then "1" else ""
    case Number(i) => IntText(i)
    case Text(s) => s
    case Words(l) => Join(l, ',')
    case Float(r) => env.print_(r)
  }

  /** The hash of a room: every public attribute, as text. */
  function ToHash(env: Floats, a: Attributes): Hash {
    map n | n in a && !n.Internal? :: Stored(env, a[n])
  }

  /** `to_redis_hash`. */
  method ToRedisHash(env: Floats, a: Attributes) returns (h: Hash)
    ensures h == ToHash(env, a)
  {
    h := map[];
    var pending := a.Keys;
    while pending != {}
      invariant pending <= a.Keys
      invariant h == map n | n in a && n !in pending && !n.Internal? :: Stored(env, a[n])
      decreases |pending|
    {
      var n :| n in pending;
      if !n.Internal? {
        h := h[n := Stored(env, a[n])];
      }
      pending := pending - {n};
    }
  }

  // ---------- Loading ----------

  datatype Kind = IntKind | FlagKind | TextKind | WordsKind | FloatKind

  function Loaded(): set<Name> {
    {
    RoomId, Description, Secret, Pin, IsPrivate, RequirePvtId, Publishers, Bitrate, BitrateCap, FirFreq, AudioCodec,
    VideoCodec, OpusFec, OpusDtx, AudioLevelExt, AudioLevelEvent, AudioActivePackets, AudioLevelAverage, VideoOrientExt,
    PlayoutDelayExt, TransportWideCcExt, Record, RecDir, NotifyJoining, LockRecord, RequireE2ee, Vp9Profile,
      H264Profile,
    MinPublisherOneBackend, CTime, UTime}
  }

  lemma LoadedIs(n: Name)
    ensures n in Loaded() <==> !n.Internal? && !n.StoredOnly?
  {
  }

  function KindOf(n: Name): Kind {
    match n
    case RoomId | Publishers | Bitrate | FirFreq => IntKind
    case AudioActivePackets | AudioLevelAverage | MinPublisherOneBackend => IntKind
    case AudioCodec | VideoCodec => WordsKind
    case Description | Secret | Pin | RecDir | Vp9Profile | H264Profile => TextKind
    case CTime | UTime => FloatKind
    case _ => FlagKind
  }

  /** The value of a missing field; a room without an id cannot be loaded. */
  function Missing(env: Floats, n: Name): Option<Value> {
    match n
    case RoomId => None
    case Publishers => Some(Number(3))
    case AudioActivePackets => Some(Number(100))
    case AudioLevelAverage => Some(Number(25))
    case MinPublisherOneBackend => Some(Number(5))
    case Bitrate | FirFreq => Some(Number(0))
    case AudioCodec => Some(Words(["opus"]))
    case VideoCodec => Some(Words(["vp8"]))
    case Description | Secret | Pin | RecDir | Vp9Profile | H264Profile => Some(Text(""))
    case CTime | UTime => Some(Float(env.now))
    case VideoOrientExt | PlayoutDelayExt => Some(Flag(true))
    case _ => Some(Flag(false))
  }

  function Parsed(env: Floats, k: Kind, s: string): Option<Value> {
    match k
    case IntKind => (match ParseInt(s) case None => None case Some(i) => Some(Number(i)))
    case FlagKind => Some(Flag(s != ""))
    case TextKind => Some(Text(s))
    case WordsKind => Some(Words(Split(s, ',')))
    case FloatKind => (match env.parse(s) case None => None case Some(r) => Some(Float(r)))
  }

  function ReadField(env: Floats, h: Hash, n: Name): Option<Value> {
    if n in h then Parsed(env, KindOf(n), h[n]) else Missing(env, n)
  }

  /** The arguments that loading passes to the constructor; `None` if one cannot be parsed or the id is missing. */
  function ReadFields(env: Floats, h: Hash): Option<Attributes> {
    if forall n :: n in Loaded() ==> ReadField(env, h, n).Some?
    then Some(map n | n in Loaded() :: ReadField(env, h, n).value) else None
  }

  function TextAt(a: Attributes, n: Name): string { if n in a && a[n].Text? then a[n].s else "" }

  function NumberAt(a: Attributes, n: Name): int { if n in a && a[n].Number? then a[n].i else 0 }

  function FlagAt(a: Attributes, n: Name): bool { n in a && a[n] == Flag(true) }

  function WordsAt(a: Attributes, n: Name): seq<string> { if n in a && a[n].Words? then a[n].l else [] }

  function FirstFive(l: seq<string>): seq<string> { if |l| > 5 then l[..5] else l }

  /** The attributes that the constructor checks. */
  datatype Config = Config(
    id: int, description: string, bitrate: int, audio: seq<string>, video: seq<string>, fec: bool, dtx: bool,
    h264: string, vp9: string)

  function ConfigOf(a: Attributes): Config {
    Config(NumberAt(a, RoomId), TextAt(a, Description), NumberAt(a, Bitrate), WordsAt(a, AudioCodec),
      WordsAt(a, VideoCodec),
           FlagAt(a, OpusFec), FlagAt(a, OpusDtx), TextAt(a, H264Profile), TextAt(a, Vp9Profile))
  }

  /** A default description, no bitrate below 64k, at most five codecs of a kind, and no option of a missing codec. */
  function Checked(c: Config): Config {
    var audio, video := FirstFive(c.audio), FirstFive(c.video);
    Config(c.id, if c.description == "" then "Room " + IntText(c.id) else c.description,
           if 0 < c.bitrate < 64000 then 64000 else c.bitrate, audio, video, c.fec && "opus" in audio, c.dtx
               && "opus" in audio,
           if "h264" in video then c.h264 else "", if "vp9" in video then c.vp9 else "")
  }

  function WithConfig(a: Attributes, c: Config): Attributes {
    a[Description := Text(c.description)][Bitrate := Number(c.bitrate)]
     [AudioCodec := Words(c.audio)][VideoCodec := Words(c.video)]
     [OpusFec := Flag(c.fec)][OpusDtx := Flag(c.dtx)][H264Profile := Text(c.h264)][Vp9Profile := Text(c.vp9)]
  }

  /** What the constructor of a room makes of its arguments. */
  function Normal(a: Attributes): Attributes {
    WithConfig(a, Checked(ConfigOf(a)))
  }

  lemma CheckedTwice(c: Config)
    ensures Checked(Checked(c)) == Checked(c) && Checked(c).id == c.id
  {
    hide IntText;
    assert "Room " + IntText(c.id) != "";
    assert FirstFive(FirstFive(c.audio)) == FirstFive(c.audio) && FirstFive(FirstFive(c.video)) == FirstFive(c.video);
  }

  lemma ConfigOfWith(a: Attributes, c: Config)
    requires c.id == NumberAt(a, RoomId)
    ensures ConfigOf(WithConfig(a, c)) == c
  {
  }

  lemma WithConfigTwice(a: Attributes, c: Config)
    ensures WithConfig(WithConfig(a, c), c) == WithConfig(a, c)
  {
  }

  /** Constructing a room from the attributes of a constructed room changes nothing. */
  lemma NormalTwice(a: Attributes)
    ensures Normal(Normal(a)) == Normal(a)
  {
    hide WithConfig, Checked;
    CheckedTwice(ConfigOf(a));
    ConfigOfWith(a, Checked(ConfigOf(a)));
    WithConfigTwice(a, Checked(ConfigOf(a)));
  }

  /** Storing a room and loading it back. */
  function Reload(env: Floats, a: Attributes): Option<Attributes> {
    Load(env, ToHash(env, a))
  }

  predicate HasKind(v: Value, k: Kind) {
    match k
    case IntKind => v.Number?
    case FlagKind => v.Flag?
    case TextKind => v.Text?
    case WordsKind => v.Words?
    case FloatKind => v.Float?
  }

  /** A room object: every loaded attribute is there and of its kind. */
  ghost predicate Typed(a: Attributes) {
    forall n :: n in Loaded() ==> n in a && HasKind(a[n], KindOf(n))
  }

  function Persisted(a: Attributes): Attributes {
    map n | n in Loaded() && n in a :: a[n]
  }

  predicate GoodWords(l: seq<string>) {
    l != [] && forall i :: 0 <= i < |l| ==> ',' !in l[i]
  }

  /** What a stored value reads back as. */
  function ReadBack(v: Value): Value {
    if v.Words? then Words(Split(Join(v.l, ','), ',')) else v
  }

  lemma ValueRoundTrip(env: Floats, v: Value, k: Kind)
    requires ReadsBack(env, v) && HasKind(v, k)
    ensures Parsed(env, k, Stored(env, v)) == Some(ReadBack(v))
  {
    if v.Number? { IntRoundTrip(v.i); }
  }

  lemma FieldRoundTrip(env: Floats, a: Attributes, n: Name)
    requires Faithful(env, Persisted(a)) && Typed(a) && n in Loaded()
    ensures ReadField(env, ToHash(env, a), n) == Some(ReadBack(a[n]))
  {
    hide Loaded, Parsed, Stored, KindOf, Missing, HasKind, ReadBack;
    LoadedIs(n);
    assert Persisted(a)[n] == a[n];
    ValueRoundTrip(env, a[n], KindOf(n));
    assert ToHash(env, a)[n] == Stored(env, a[n]);
  }

  lemma FieldsRoundTrip(env: Floats, a: Attributes)
    requires Faithful(env, Persisted(a)) && Typed(a)
    ensures ReadFields(env, ToHash(env, a)) == Some(map n | n in Loaded() :: ReadBack(a[n]))
  {
    hide Loaded, ReadField, KindOf, HasKind, ReadBack, ToHash;
    forall n | n in Loaded() ensures ReadField(env, ToHash(env, a), n) == Some(ReadBack(a[n])) {
      FieldRoundTrip(env, a, n);
    }
    assert ReadFields(env, ToHash(env, a)).value == map n | n in Loaded() :: ReadBack(a[n]);
  }

  lemma BadWordsDiffer(l: seq<string>)
    requires !GoodWords(l)
    ensures FirstFive(Split(Join(l, ','), ',')) != l
  {
    var parts := Split(Join(l, ','), ',');
    SplitParts(Join(l, ','), ',');
    assert forall i :: 0 <= i < |FirstFive(parts)| ==> FirstFive(parts)[i] == parts[i];
  }

  /** Loading what was stored gives the room back, exactly if its attributes are what the constructor makes of them,
      its codec lists are not empty and contain no comma, and its times read back as printed. */
  lemma RoomRoundTrip(env: Floats, a: Attributes)
    requires Typed(a)
    ensures Reload(env, a) == Some(Persisted(a)) <==>
              && Normal(Persisted(a)) == Persisted(a) && Faithful(env, Persisted(a))
              && GoodWords(WordsAt(a, AudioCodec)) && GoodWords(WordsAt(a, VideoCodec))
  {
    hide Faithful, Reload, Normal, GoodWords, Persisted, Typed;
    if Faithful(env, Persisted(a)) {
      FaithfulRoundTrip(env, a);
    } else {
      UnfaithfulDiffers(env, a);
    }
  }

  lemma FaithfulRoundTrip(env: Floats, a: Attributes)
    requires Faithful(env, Persisted(a)) && Typed(a)
    ensures Reload(env, a) == Some(Persisted(a)) <==>
              Normal(Persisted(a)) == Persisted(a) && GoodWords(WordsAt(a, AudioCodec))
                && GoodWords(WordsAt(a, VideoCodec))
  {
    hide Loaded, ReadBack, KindOf, HasKind, ToHash, ReadFields, Normal, GoodWords, FirstFive;
    FieldsRoundTrip(env, a);
    var b := map n | n in Loaded() :: ReadBack(a[n]);
    if GoodWords(WordsAt(a, AudioCodec)) && GoodWords(WordsAt(a, VideoCodec)) {
      forall n | n in Loaded() ensures ReadBack(a[n]) == a[n] { GoodReadBack(a, n); }
      assert b == Persisted(a);
    } else {
      var n := if GoodWords(WordsAt(a, AudioCodec)) then VideoCodec else AudioCodec;
      LoadedIs(n);
      BadReadBack(a, b, n);
    }
  }

  lemma UnfaithfulDiffers(env: Floats, a: Attributes)
    requires Typed(a) && !Faithful(env, Persisted(a))
    ensures Reload(env, a) != Some(Persisted(a))
  {
    hide Loaded, WithConfig, Checked, HasKind, Missing, KindOf, Stored;
    var n :| n in Persisted(a) && !ReadsBack(env, Persisted(a)[n]);
    LoadedIs(n);
    StoredFloat(env, a[n], n);
    var h := ToHash(env, a);
    assert h[n] == Stored(env, a[n]);
    if ReadFields(env, h).Some? {
      var b := ReadFields(env, h).value;
      KeepsTimes(b, n);
      assert n in Loaded() && Some(b[n]) == ReadField(env, h, n);
    }
  }

  lemma StoredFloat(env: Floats, v: Value, n: Name)
    requires HasKind(v, KindOf(n)) && !ReadsBack(env, v)
    ensures Parsed(env, KindOf(n), Stored(env, v)) != Some(v) && KindOf(n).FloatKind? && (n == CTime || n == UTime)
  {
    KindsOf(n);
  }

  /** The constructor leaves the times as they are. */
  lemma KeepsTimes(b: Attributes, n: Name)
    requires n in b && (n == CTime || n == UTime)
    ensures n in Normal(b) && Normal(b)[n] == b[n]
  {
    hide Checked;
  }

  lemma GoodReadBack(a: Attributes, n: Name)
    requires Typed(a) && n in Loaded() && GoodWords(WordsAt(a, AudioCodec)) && GoodWords(WordsAt(a, VideoCodec))
    ensures ReadBack(a[n]) == a[n]
  {
    hide Loaded;
    if a[n].Words? {
      SplitJoin(a[n].l, ',');
    }
  }

  lemma BadReadBack(a: Attributes, b: Attributes, n: Name)
    requires Typed(a) && (n == AudioCodec || n == VideoCodec) && !GoodWords(WordsAt(a, n))
    requires b.Keys == Loaded() && n in b && b[n] == ReadBack(a[n])
    ensures Normal(b) != Persisted(a) && n in a
  {
    hide Loaded, GoodWords;
    BadWordsDiffer(WordsAt(a, n));
    assert HasKind(a[n], KindOf(n));
    assert Normal(b)[n] == Words(FirstFive(WordsAt(b, n)));
  }

  /** In particular every room that the constructor made from good codec lists comes back. */
  lemma ConstructedRoomRoundTrip(env: Floats, args: Attributes)
    requires Faithful(env, args) && Typed(args) && GoodWords(WordsAt(args, AudioCodec))
    requires GoodWords(WordsAt(args, VideoCodec))
    ensures Reload(env, Normal(args)) == Some(Persisted(Normal(args)))
  {
    hide Loaded, Reload, Normal, Persisted, Typed, GoodWords, Faithful;
    var a := Normal(args);
    ConstructedIsTyped(args);
    ConstructedIsFaithful(env, args);
    PersistedIsFaithful(env, a);
    RoomRoundTrip(env, a);
    NormalTwice(args);
    NormalPersists(a);
  }

  /** The constructor adds no float. */
  lemma ConstructedIsFaithful(env: Floats, args: Attributes)
    requires Faithful(env, args)
    ensures Faithful(env, Normal(args))
  {
    hide Checked;
  }

  /** There are rooms to which the round trip applies, with any creation and update time. */
  lemma SomeRoomIsFaithful(c: real, u: real)
    ensures var a := ExampleRoom(c, u);
      && Faithful(ExampleFloats(c, u), a) && Typed(a) && a[CTime] == Float(c) && a[UTime] == Float(u)
      && GoodWords(WordsAt(a, AudioCodec)) && GoodWords(WordsAt(a, VideoCodec))
  {
    hide Loaded, Example, Typed, Faithful, ExampleFloats;
    ExampleIsTyped(c, u);
    LoadedIs(CTime);
    LoadedIs(UTime);
    LoadedIs(AudioCodec);
    LoadedIs(VideoCodec);
    ExampleFits(CTime, c, u);
    ExampleFits(UTime, c, u);
    ExampleFits(AudioCodec, c, u);
    ExampleFits(VideoCodec, c, u);
  }

  lemma ExampleIsTyped(c: real, u: real)
    ensures Faithful(ExampleFloats(c, u), ExampleRoom(c, u)) && Typed(ExampleRoom(c, u))
  {
    hide Loaded, Example, ReadsBack, HasKind, KindOf, ExampleFloats;
    var a := ExampleRoom(c, u);
    forall n | n in Loaded() ensures n in a && HasKind(a[n], KindOf(n)) && ReadsBack(ExampleFloats(c, u), a[n]) {
      ExampleFits(n, c, u);
    }
  }

  lemma ExampleFits(n: Name, c: real, u: real)
    ensures HasKind(Example(n, c, u), KindOf(n)) && ReadsBack(ExampleFloats(c, u), Example(n, c, u))
    ensures n == CTime ==> Example(n, c, u) == Float(c)
    ensures n == UTime ==> Example(n, c, u) == Float(u)
    ensures n == AudioCodec || n == VideoCodec ==> Example(n, c, u) == Words(["opus"])
  {
    hide KindOf;
    KindsOf(n);
  }

  /** Which attributes are parsed as what. */
  lemma KindsOf(n: Name)
    ensures KindOf(n) == FloatKind <==> n == CTime || n == UTime
    ensures KindOf(n) == WordsKind <==> n == AudioCodec || n == VideoCodec
    ensures KindOf(n) == IntKind <==>
              || n == RoomId || n == Publishers || n == Bitrate || n == FirFreq
              || n == AudioActivePackets || n == AudioLevelAverage || n == MinPublisherOneBackend
    ensures KindOf(n) == TextKind <==>
              n == Description || n == Secret || n == Pin || n == RecDir || n == Vp9Profile || n == H264Profile
  {
  }

  /** What an attribute is stored as: nothing and false as the empty text, true as "1", words joined by commas. */
  lemma StoredIs(env: Floats, a: Attributes, n: Name)
    ensures n in ToHash(env, a) <==> n in a && !n.Internal?
    ensures n in ToHash(env, a) && (a[n] == Nothing || a[n] == Flag(false)) ==> ToHash(env, a)[n] == ""
    ensures n in ToHash(env, a) && a[n] == Flag(true) ==> ToHash(env, a)[n] == "1"
    ensures n in ToHash(env, a) && a[n].Text? ==> ToHash(env, a)[n] == a[n].s
    ensures n in ToHash(env, a) && a[n].Words? && |a[n].l| == 2 ==> ToHash(env, a)[n] == a[n].l[0] + "," + a[n].l[1]
  {
    if n in a && a[n].Words? && |a[n].l| == 2 { JoinTwo(a[n].l, ','); }
  }

  lemma JoinTwo(l: seq<string>, sep: char)
    requires |l| == 2
    ensures Join(l, sep) == l[0] + [sep] + l[1]
  {
    assert l[1..] == [l[1]];
    assert Join(l[1..], sep) == l[1];
  }

  /** What a field is read as, present or missing. */
  lemma ReadIs(env: Floats, h: Hash, n: Name)
    requires n in Loaded()
    ensures n in h && KindOf(n) == FlagKind ==> ReadField(env, h, n) == Some(Flag(h[n] != ""))
    ensures n in h && KindOf(n) == TextKind ==> ReadField(env, h, n) == Some(Text(h[n]))
    ensures n !in h ==> (ReadField(env, h, n).None? <==> n == RoomId)
    ensures n !in h && KindOf(n) == TextKind ==> ReadField(env, h, n) == Some(Text(""))
    ensures n !in h && KindOf(n) == FlagKind ==>
              ReadField(env, h, n) == Some(Flag(n == VideoOrientExt || n == PlayoutDelayExt))
    ensures n !in h && KindOf(n) == IntKind && n != RoomId ==> ReadField(env, h, n) == Some(Number(
              if n == Publishers then 3 else if n == AudioActivePackets then 100 else if n == AudioLevelAverage then 25
              else if n == MinPublisherOneBackend then 5 else 0))
    ensures n !in h && n == AudioCodec ==> ReadField(env, h, n) == Some(Words(["opus"]))
    ensures n !in h && n == VideoCodec ==> ReadField(env, h, n) == Some(Words(["vp8"]))
    ensures n !in h && KindOf(n) == FloatKind ==> ReadField(env, h, n) == Some(Float(env.now))
  {
    LoadedIs(n);
  }

  /** What the constructor makes of the attributes that it checks. */
  lemma CheckedIs(c: Config)
    ensures var d := Checked(c);
      && d.id == c.id && (c.description != "" ==> d.description == c.description)
      && (c.description == "" ==> d.description == "Room " + IntText(c.id))
      && d.bitrate == (if 0 < c.bitrate < 64000 then 64000 else c.bitrate)
      && d.audio == (if |c.audio| <= 5 then c.audio else c.audio[..5])
      && d.video == (if |c.video| <= 5 then c.video else c.video[..5])
      && (d.fec <==> c.fec && exists i :: 0 <= i < 5 && i < |c.audio| && c.audio[i] == "opus")
      && (d.dtx <==> c.dtx && exists i :: 0 <= i < 5 && i < |c.audio| && c.audio[i] == "opus")
      && d.h264 == (if exists i :: 0 <= i < 5 && i < |c.video| && c.video[i] == "h264" then c.h264 else "")
      && d.vp9 == (if exists i :: 0 <= i < 5 && i < |c.video| && c.video[i] == "vp9" then c.vp9 else "")
  {
    hide IntText;
    InFirstFive(c.audio, "opus");
    InFirstFive(c.video, "h264");
    InFirstFive(c.video, "vp9");
  }

  lemma InFirstFive(l: seq<string>, x: string)
    ensures x in FirstFive(l) <==> exists i :: 0 <= i < 5 && i < |l| && l[i] == x
  {
    if i :| 0 <= i < 5 && i < |l| && l[i] == x {
      assert FirstFive(l)[i] == x;
    }
  }

  /** Which attributes those are; the constructor leaves the others alone. */
  lemma NormalIs(a: Attributes, c: Config)
    requires {RoomId, Description, Bitrate, AudioCodec, VideoCodec, OpusFec, OpusDtx, H264Profile, Vp9Profile} <= a.Keys
    requires a[RoomId] == Number(c.id) && a[Description] == Text(c.description) && a[Bitrate] == Number(c.bitrate)
    requires a[AudioCodec] == Words(c.audio) && a[VideoCodec] == Words(c.video)
    requires a[OpusFec] == Flag(c.fec) && a[OpusDtx] == Flag(c.dtx)
    requires a[H264Profile] == Text(c.h264) && a[Vp9Profile] == Text(c.vp9)
    ensures var d := Checked(c);
      Normal(a) == a + map[Description := Text(d.description), Bitrate := Number(d.bitrate),
        AudioCodec := Words(d.audio),
                           VideoCodec := Words(d.video), OpusFec := Flag(d.fec), OpusDtx := Flag(d.dtx),
                           H264Profile := Text(d.h264), Vp9Profile := Text(d.vp9)]
  {
    hide Loaded, Checked, Typed, HasKind, KindOf;
  }

  function ExampleFloats(c: real, u: real): Floats {
    Floats(r => if r == c then "c" else "u", s => if s == "c" then Some(c) else Some(u), 0.0)
  }

  function ExampleRoom(c: real, u: real): Attributes {
    map n | n in Loaded() :: Example(n, c, u)
  }

  function Example(n: Name, c: real, u: real): Value {
    match KindOf(n)
    case IntKind => Number(0)
    case FlagKind => Flag(false)
    case TextKind => Text("")
    case WordsKind => Words(["opus"])
    case FloatKind => Float(if n == CTime then c else u)
  }

  lemma WithKeepsTyped(a: Attributes, c: Config)
    requires Typed(a)
    ensures Typed(WithConfig(a, c)) && WordsAt(WithConfig(a, c), AudioCodec) == c.audio
    ensures WordsAt(WithConfig(a, c), VideoCodec) == c.video
  {
    hide Loaded;
  }

  lemma GoodFive(l: seq<string>)
    requires GoodWords(l)
    ensures GoodWords(FirstFive(l))
  {
  }

  lemma ConstructedIsTyped(args: Attributes)
    requires Typed(args) && GoodWords(WordsAt(args, AudioCodec)) && GoodWords(WordsAt(args, VideoCodec))
    ensures Typed(Normal(args))
    ensures GoodWords(WordsAt(Normal(args), AudioCodec)) && GoodWords(WordsAt(Normal(args), VideoCodec))
  {
    hide Typed, GoodWords, FirstFive, WithConfig, IntText;
    WithKeepsTyped(args, Checked(ConfigOf(args)));
    GoodFive(WordsAt(args, AudioCodec));
    GoodFive(WordsAt(args, VideoCodec));
  }

  lemma NormalPersists(a: Attributes)
    requires Typed(a) && Normal(a) == a
    ensures Normal(Persisted(a)) == Persisted(a)
  {
    hide Loaded, HasKind, KindOf, Checked, WithConfig;
    ForNames(a);
    assert ConfigOf(Persisted(a)) == ConfigOf(a);
    WithPersists(a, Checked(ConfigOf(a)));
  }

  lemma WithPersists(a: Attributes, c: Config)
    requires Typed(a) && WithConfig(a, c) == a
    ensures WithConfig(Persisted(a), c) == Persisted(a)
  {
    hide Loaded, HasKind, KindOf;
    ForNames(a);
  }

  lemma ForNames(a: Attributes)
    requires Typed(a)
    ensures forall n :: n in {Description, RoomId, Bitrate, AudioCodec, VideoCodec, OpusFec, OpusDtx, H264Profile,
              Vp9Profile} ==>
              n in Loaded() && n in a
  {
  }

  // ---------- Listing ----------

  /** The room loaded from a hash, `None` if a field of it cannot be read. */
  function Load(env: Floats, h: Hash): Option<Attributes> {
    match ReadFields(env, h) case None => None case Some(b) => Some(Normal(b))
  }

  /** The rooms stored under the given keys, without the keys that have vanished; `None` if one cannot be loaded. */
  function RoomsAt(env: Floats, store: map<string, Hash>, keys: seq<string>): Option<seq<Attributes>> {
    if keys == [] then Some([])
    else
      var k := keys[|keys| - 1];
      match RoomsAt(env, store, keys[..|keys| - 1])
      case None => None
      case Some(rooms) =>
        if k !in store || store[k] == map[] then Some(rooms)
        else match Load(env, store[k])
          case None => None
          case Some(room) => Some(rooms + [room])
  }

  /** A listing fails exactly if one of its rooms cannot be loaded. */
  lemma {:induction false} ListingFails(env: Floats, store: map<string, Hash>, keys: seq<string>)
    ensures RoomsAt(env, store, keys).None? <==> exists k :: k in keys && Broken(env, store, k)
  {
    hide Load;
    if keys != [] {
      var rest, k := keys[..|keys| - 1], keys[|keys| - 1];
      assert keys == rest + [k];
      ListingFails(env, store, rest);
      assert RoomsAt(env, store, keys).None? <==> RoomsAt(env, store, rest).None? || Broken(env, store, k);
    }
  }

  predicate Broken(env: Floats, store: map<string, Hash>, k: string) {
    k in store && store[k] != map[] && Load(env, store[k]).None?
  }

  /** Rooms are listed as they were stored. */
  lemma {:induction false} ListedAsStored(env: Floats, rooms: map<string, Attributes>, store: map<string, Hash>,
                                          keys: seq<string>)
    requires forall i :: 0 <= i < |keys| ==> keys[i] in rooms && IsStored(env, rooms, store, keys[i])
    ensures RoomsAt(env, store, keys).Some? && |RoomsAt(env, store, keys).value| == |keys|
    ensures forall i :: 0 <= i < |keys| ==> RoomsAt(env, store, keys).value[i] == Persisted(rooms[keys[i]])
  {
    hide Storable, ToHash, Load, Persisted;
    if keys != [] {
      var n := |keys| - 1;
      ListedAsStored(env, rooms, store, keys[..n]);
      assert IsStored(env, rooms, store, keys[n]);
      LoadsBack(env, rooms[keys[n]]);
      assert RoomsAt(env, store, keys).value == RoomsAt(env, store, keys[..n]).value + [Persisted(rooms[keys[n]])];
    }
  }

  ghost predicate IsStored(env: Floats, rooms: map<string, Attributes>, store: map<string, Hash>, k: string) {
    k in rooms && k in store && Storable(env, rooms[k]) && store[k] == ToHash(env, rooms[k])
  }

  /** A room as the constructor leaves it, with good codec lists and floats that read back. */
  ghost predicate Storable(env: Floats, a: Attributes) {
    Faithful(env, a) && Typed(a) && Normal(a) == a && GoodWords(WordsAt(a, AudioCodec))
      && GoodWords(WordsAt(a, VideoCodec))
  }

  lemma PersistedIsFaithful(env: Floats, a: Attributes)
    requires Faithful(env, a)
    ensures Faithful(env, Persisted(a))
  {
    hide Loaded, ReadsBack;
    forall n | n in Persisted(a) ensures ReadsBack(env, Persisted(a)[n]) {
      assert Persisted(a)[n] == a[n];
    }
  }

  lemma LoadsBack(env: Floats, a: Attributes)
    requires Storable(env, a)
    ensures ToHash(env, a) != map[] && Load(env, ToHash(env, a)) == Some(Persisted(a))
  {
    hide Normal, GoodWords, ReadFields, Faithful, Loaded, Persisted;
    NormalPersists(a);
    PersistedIsFaithful(env, a);
    RoomRoundTrip(env, a);
    LoadedIs(RoomId);
    assert RoomId in a && RoomId in ToHash(env, a);
  }

  const STEP: nat := 32

  function Min(a: nat, b: nat): nat { if a < b then a else b }

  /** `get_list`: reads the rooms in batches. If the batch number `failing` raises, the rooms of the batches before
      it are listed; else all rooms are, once each and in the order of the keys. A room that cannot be loaded ends
      the listing with an error, `None`. */
  method GetList(env: Floats, store: map<string, Hash>, keys: seq<string>, failing: Option<nat>)
    returns (rooms: Option<seq<Attributes>>)
    ensures failing.None? ==> rooms == RoomsAt(env, store, keys)
    ensures failing.Some? ==> rooms == RoomsAt(env, store, keys[..Min(failing.value * STEP, |keys|)])
  {
    hide Load;
    var list: seq<Attributes> := [];
    var start, batch := 0, 0;
    while true
      invariant start == batch * STEP && (batch == 0 || start < |keys|)
      invariant failing.Some? ==> batch <= failing.value
      invariant start <= |keys| && Some(list) == RoomsAt(env, store, keys[..start])
      decreases |keys| - start
    {
      if failing == Some(batch) {
        return Some(list);
      }
      var end := Min(start + STEP, |keys|);
      var longer := ReadBatch(env, store, keys, start, end, list);
      if longer.None? {
        BrokenStays(env, store, keys, end, |keys|);
        if failing.Some? {
          Earlier(failing.value, batch, |keys|);
          BrokenStays(env, store, keys, end, Min(failing.value * STEP, |keys|));
        }
        assert keys[..|keys|] == keys;
        return None;
      }
      list := longer.value;
      start := start + STEP;
      batch := batch + 1;
      if start >= |keys| {
        assert keys[..end] == keys;
        if failing.Some? { BatchesCover(failing.value, batch, |keys|); }
        break;
      }
    }
    return Some(list);
  }

  /** One batch: adds the rooms under the keys from `start` to `end` to `list`. */
  method ReadBatch(env: Floats, store: map<string, Hash>, keys: seq<string>, start: nat, end: nat,
                   list: seq<Attributes>)
    returns (longer: Option<seq<Attributes>>)
    requires start <= end <= |keys| && Some(list) == RoomsAt(env, store, keys[..start])
    ensures longer == RoomsAt(env, store, keys[..end])
  {
    hide Load;
    var rooms, i := list, start;
    while i < end
      invariant start <= i <= end && Some(rooms) == RoomsAt(env, store, keys[..i])
    {
      assert keys[..i + 1][..i] == keys[..i];
      if keys[i] in store && store[keys[i]] != map[] {
        var room := Load(env, store[keys[i]]);
        if room.None? {
          BrokenStays(env, store, keys, i + 1, end);
          return None;
        }
        rooms := rooms + [room.value];
      }
      i := i + 1;
    }
    return Some(rooms);
  }

  /** What cannot be listed cannot be listed with more keys. */
  lemma {:induction false} BrokenStays(env: Floats, store: map<string, Hash>, keys: seq<string>, i: nat, j: nat)
    requires i <= j <= |keys| && RoomsAt(env, store, keys[..i]).None?
    ensures RoomsAt(env, store, keys[..j]).None?
  {
    if i < j {
      BrokenStays(env, store, keys, i, j - 1);
      assert keys[..j][..j - 1] == keys[..j - 1];
    }
  }

  lemma Earlier(failing: nat, batch: nat, total: nat)
    requires batch < failing
    ensures Min(batch * STEP + STEP, total) <= Min(failing * STEP, total)
  {
    assert failing * STEP >= (batch + 1) * STEP;
  }

  lemma BatchesCover(failing: nat, batch: nat, total: nat)
    requires batch <= failing && batch * STEP >= total
    ensures Min(failing * STEP, total) == total
  {
    assert failing * STEP >= batch * STEP;
  }
}
