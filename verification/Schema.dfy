/** The validation engine that configuration and every request go through: nested dictionaries with required,
    optional and catch-all keys, defaults, lists, and coercing leaves.
    What depends on Python's own text handling is a parameter (`Env`). */
module Schemas {

  import opened Common

  datatype Result<T> = Ok(value: T) | SchemaError

  datatype Data =
    | Null | Bool(b: bool) | Int(i: int) | Real(r: real) | Str(s: string) | List(items: seq<Data>)
    | Dict(fields: map<string, Data>)

  /** Python's `int(s, 0)`, `float(s)`, `str.isspace`, `str(d)`, and whether a compiled pattern matches. */
  datatype Env = Env(
    parseInt: string -> Option<int>, parseFloat: string -> Option<real>, space: char -> bool,
    render: Data -> string, matches: (int, string) -> bool)

  datatype DataType = StrType | IntType | BoolType | FloatType | ListType | DictType | ObjectType

  /** A key of a dictionary schema: a literal, `Optional(literal)`, `AutoDel(str)` or `DoNotCare(str)`. */
  datatype Key = Required(name: string) | Optional(name: string) | AutoDel | DoNotCare

  datatype Entry = Entry(key: Key, value: Schema)

  datatype Schema =
    | IntVal(minInt: Option<int>, maxInt: Option<int>, values: seq<int>)
    | FloatVal(minReal: Option<real>, maxReal: Option<real>)
    | BoolVal
    | StrVal(minLen: Option<nat>, maxLen: Option<nat>, invalid: seq<char>)
    | EnumVal(choices: seq<string>)
    | StrRe(pattern: int)
    | Literal(text: string)
    | Instance(t: DataType)
    | ListVal(element: Schema, sep: char, maxItems: Option<nat>)
    | ListOf(element: Schema)
    | Default(inner: Schema, default: Data)
    | DictOf(entries: seq<Entry>)

  // ---------- Leaves ----------

  function Truncated(r: real): int { if r >= 0.0 then r.Floor else -((-r).Floor) }

  /** A boolean is an integer and stays a boolean; text is parsed; a float is truncated. */
  function AsInt(env: Env, d: Data): Option<(Data, int)> {
    match d
    case Int(i) => Some((d, i))
    case Bool(b) => Some((d, if b then 1 else 0))
    case Str(s) => (match env.parseInt(s) case None => None case Some(i) => Some((Int(i), i)))
    case Real(r) => Some((Int(Truncated(r)), Truncated(r)))
    case _ => None
  }

  predicate InRange(min: Option<int>, max: Option<int>, values: seq<int>, i: int) {
    i in values
    || ((min.Some? ==> min.value <= i) && (max.Some? ==> i <= max.value) && (min.None? && max.None? ==> values == []))
  }

  function AsReal(env: Env, d: Data): Option<real> {
    match d
    case Real(r) => Some(r)
    case Int(i) => Some(i as real)
    case Bool(b) => Some(if b then 1.0 else 0.0)
    case Str(s) => env.parseFloat(s)
    case _ => None
  }

  function LowerChar(c: char): char {
    if 'A' <= c <= 'Z' then (c as int + 32) as char else c
  }

  function Lower(s: string): string {
    if s == "" then "" else [LowerChar(s[0])] + Lower(s[1..])
  }

  function AsBool(d: Data): Option<bool> {
    match d
    case Bool(b) => Some(b)
    case Int(i) => Some(i != 0)
    case Str(s) => if Lower(s) == "true" then Some(true) else if Lower(s) == "false" then Some(false) else None
    case _ => None
  }

  function LeftStripped(env: Env, s: string): string {
    if s != "" && env.space(s[0]) then LeftStripped(env, s[1..]) else s
  }

  function RightStripped(env: Env, s: string): string {
    if s != "" && env.space(s[|s| - 1]) then RightStripped(env, s[..|s| - 1]) else s
  }

  function Stripped(env: Env, s: string): string {
    RightStripped(env, LeftStripped(env, s))
  }

  predicate GoodText(min: Option<nat>, max: Option<nat>, invalid: seq<char>, s: string) {
    (min.Some? ==> min.value <= |s|) && (max.Some? ==> |s| <= max.value) && forall c :: c in invalid ==> c !in s
  }

  predicate IsInstance(t: DataType, d: Data) {
    match t
    case StrType => d.Str?
    case IntType => d.Int? || d.Bool?
    case BoolType => d.Bool?
    case FloatType => d.Real?
    case ListType => d.List?
    case DictType => d.Dict?
    case ObjectType => true
  }

  function Texts(parts: seq<string>): seq<Data> {
    if parts == [] then [] else [Str(parts[0])] + Texts(parts[1..])
  }

  /** Nothing and the empty string are the empty list; other text is split. */
  function AsList(d: Data, sep: char): Option<seq<Data>> {
    match d
    case Null => Some([])
    case List(items) => Some(items)
    case Str(s) => Some(if s == "" then [] else Texts(Split(s, sep)))
    case _ => None
  }

  // ---------- Which entry decides a key ----------

  /** Smaller is tried first; entries of one priority are tried in the order they were written. */
  function Priority(k: Key): int {
    match k
    case Required(_) => 1
    case Optional(_) => 7
    case AutoDel => 8
    case DoNotCare => 9
  }

  predicate Matches(k: Key, name: string) {
    match k
    case Required(n) => n == name
    case Optional(n) => n == name
    case _ => true
  }

  function First(entries: seq<Entry>, k: Key): (r: Option<nat>)
    ensures r.Some? ==> r.value < |entries| && entries[r.value].key == k && forall i :: 0 <= i < r.value ==>
              entries[i].key != k
    ensures r.None? ==> forall i :: 0 <= i < |entries| ==> entries[i].key != k
  {
    if entries == [] then None
    else if entries[0].key == k then Some(0)
    else match First(entries[1..], k)
      case None => assert forall i :: 0 < i < |entries| ==> entries[i] == entries[1..][i - 1]; None
      case Some(i) => assert forall j :: 0 < j <= i ==> entries[j] == entries[1..][j - 1]; Some(i + 1)
  }

  /** A literal before an optional key, a declared key before a catch-all, and the first of its kind. */
  function Decide(entries: seq<Entry>, name: string): (r: Option<nat>)
    ensures r.Some? ==> r.value < |entries| && Matches(entries[r.value].key, name)
  {
    if First(entries, Required(name)).Some? then First(entries, Required(name))
    else if First(entries, Optional(name)).Some? then First(entries, Optional(name))
    else if First(entries, AutoDel).Some? then First(entries, AutoDel)
    else First(entries, DoNotCare)
  }

  // ---------- Validation ----------

  function Valid(env: Env, s: Schema, d: Data): Result<Data>
    decreases s, 4
  {
    match s
    case IntVal(min, max, values) =>
      (match AsInt(env, d)
       case None => SchemaError
       case Some((v, i)) => if InRange(min, max, values, i) then Ok(v) else SchemaError)
    case FloatVal(min, max) =>
      (match AsReal(env, d)
       case None => SchemaError
       case Some(r) => if (min.Some? ==> min.value <= r) && (max.Some? ==> r <= max.value) then Ok(Real(r))
           else SchemaError)
    case BoolVal => (match AsBool(d) case None => SchemaError case Some(b) => Ok(Bool(b)))
    case StrVal(min, max, invalid) =>
      if d.Str? && GoodText(min, max, invalid, Stripped(env, d.s)) then Ok(Str(Stripped(env, d.s))) else SchemaError
    case EnumVal(choices) => if d.Str? && d.s in choices then Ok(d) else SchemaError
    case StrRe(pattern) =>
      var text := if d.Str? then d.s else env.render(d);
      if env.matches(pattern, text) then Ok(Str(text)) else SchemaError
    case Literal(text) => if d == Str(text) then Ok(d) else SchemaError
    case Instance(t) => if IsInstance(t, d) then Ok(d) else SchemaError
    case ListVal(element, sep, maxItems) =>
      (match AsList(d, sep)
       case None => SchemaError
       case Some(items) =>
         if maxItems.Some? && |items| > maxItems.value then SchemaError
             else ListResult(ValidItems(env, element, items)))
    case ListOf(element) => if d.List? then ListResult(ValidItems(env, element, d.items)) else SchemaError
    case Default(inner, _) => Valid(env, inner, d)
    case DictOf(entries) => if d.Dict? then ValidFields(env, s, d.fields) else SchemaError
  }

  function ListResult(r: Result<seq<Data>>): Result<Data> {
    match r case SchemaError => SchemaError case Ok(items) => Ok(List(items))
  }

  function ValidItems(env: Env, element: Schema, items: seq<Data>): (r: Result<seq<Data>>)
    ensures r.Ok? ==> |r.value| == |items|
    decreases element, 5 + |items|
  {
    if items == [] then Ok([])
    else match Valid(env, element, items[0])
      case SchemaError => SchemaError
      case Ok(v) => (match ValidItems(env, element, items[1..])
                     case SchemaError => SchemaError
                     case Ok(vs) => Ok([v] + vs))
  }

  /** Every key is decided by an entry that accepts its value. */
  predicate KeysAccepted(env: Env, s: Schema, m: map<string, Data>)
    requires s.DictOf?
    decreases s, 1
  {
    forall k :: k in m ==> KeyAccepted(env, s, k, m[k])
  }

  predicate KeyAccepted(env: Env, s: Schema, k: string, v: Data)
    requires s.DictOf?
    decreases s, 0
  {
    match Decide(s.entries, k)
    case None => s.entries == []
    case Some(i) => Valid(env, s.entries[i].value, v).Ok?
  }

  /** What a key contributes to the result: nothing if it is deleted (or if the schema has no entry at all). */
  function Kept(env: Env, s: Schema, m: map<string, Data>): map<string, Data>
    requires s.DictOf? && KeysAccepted(env, s, m)
    decreases s, 2
  {
    map k | k in m && IsKept(s.entries, k) :: ValidValue(env, s, k, m[k])
  }

  predicate IsKept(entries: seq<Entry>, k: string) {
    Decide(entries, k).Some? && !entries[Decide(entries, k).value].key.AutoDel?
  }

  function ValidValue(env: Env, s: Schema, k: string, v: Data): Data
    requires s.DictOf? && IsKept(s.entries, k) && KeyAccepted(env, s, k, v)
    decreases s, 1
  {
    Valid(env, s.entries[Decide(s.entries, k).value].value, v).value
  }

  /** Entry `i` decided some key of `m`. */
  predicate Covered(entries: seq<Entry>, m: map<string, Data>, i: nat) {
    exists k :: k in m && Decide(entries, k) == Some(i)
  }

  predicate RequiredPresent(entries: seq<Entry>, m: map<string, Data>) {
    forall i :: 0 <= i < |entries| && entries[i].key.Required? ==> Covered(entries, m, i)
  }

  function DefaultKey(k: Key): string {
    if k.Optional? then k.name else ""
  }

  /** `new` with the defaults of those of the first `n` entries that are not required and decided no key. */
  function Filled(entries: seq<Entry>, m: map<string, Data>, n: nat, new_: map<string, Data>): map<string, Data>
    requires n <= |entries|
  {
    if n == 0 then new_
    else
      var before := Filled(entries, m, n - 1, new_);
      var e := entries[n - 1];
      if !e.key.Required? && !Covered(entries, m, n - 1) && e.value.Default?
          then before[DefaultKey(e.key) := e.value.default]
      else before
  }

  function ValidFields(env: Env, s: Schema, m: map<string, Data>): Result<Data>
    requires s.DictOf?
    decreases s, 3
  {
    if KeysAccepted(env, s, m) && RequiredPresent(s.entries, m)
    then Ok(Dict(Filled(s.entries, m, |s.entries|, Kept(env, s, m)))) else SchemaError
  }

  // ---------- Well-formed schemas ----------

  predicate Declares(k: Key) { k.Required? || k.Optional? }

  predicate DistinctNames(entries: seq<Entry>) {
    forall i, j :: 0 <= i < j < |entries| && Declares(entries[i].key) && Declares(entries[j].key) ==>
      entries[i].key.name != entries[j].key.name
  }

  /** Entry `i` is a catch-all whose value has a default. */
  predicate CatchAllDefault(entries: seq<Entry>, i: nat) {
    i < |entries| && !Declares(entries[i].key) && entries[i].value.Default?
  }

  /** At most one catch-all has a default. It is stored under the empty key, which then is not declared. */
  ghost predicate OneCatchAllDefault(entries: seq<Entry>) {
    && (forall i: nat, j: nat :: CatchAllDefault(entries, i) && CatchAllDefault(entries, j) ==> i == j)
    && (forall i: nat :: CatchAllDefault(entries, i) ==> !Declared(entries, ""))
  }

  /** A default of a catch-all survives a second validation: the entry that decides the empty key accepts it, and that
      is not the catch-all itself if it deletes keys. */
  ghost predicate StableCatchAlls(env: Env, s: Schema)
    requires s.DictOf?
  {
    forall i: nat :: CatchAllDefault(s.entries, i) ==>
      KeyAccepted(env, s, "", s.entries[i].value.default)
      && !(s.entries[i].key.AutoDel? && Decide(s.entries, "") == Some(i))
  }

  /** Names are declared once, and every default passed its constructor. */
  ghost predicate NearlyWf(env: Env, s: Schema)
    requires s.DictOf?
    decreases s, 0
  {
    && DistinctNames(s.entries) && OneCatchAllDefault(s.entries)
    && (forall i :: 0 <= i < |s.entries| ==> Wf(env, s.entries[i].value))
  }

  /** The schemas of the repository: names are declared once, every default passed its constructor, and a default of a
      catch-all is stable. */
  ghost predicate Wf(env: Env, s: Schema)
    decreases s, 1
  {
    match s
    case ListVal(element, _, _) => Wf(env, element)
    case ListOf(element) => Wf(env, element)
    case Default(inner, default) => Wf(env, inner) && Valid(env, inner, default) == Ok(default)
    case DictOf(_) => NearlyWf(env, s) && StableCatchAlls(env, s)
    case _ => true
  }

  predicate Declared(entries: seq<Entry>, k: string) {
    exists i :: 0 <= i < |entries| && Declares(entries[i].key) && entries[i].key.name == k
  }

  /** The constructor of `Default`: the default is validated, and an invalid one raises. */
  function MakeDefault(env: Env, inner: Schema, raw: Data): Result<Schema> {
    match Valid(env, inner, raw) case SchemaError => SchemaError case Ok(v) => Ok(Default(inner, v))
  }

  // ---------- Validation is a projection ----------

  lemma {:induction false} LeftStrippedStarts(env: Env, s: string)
    ensures LeftStripped(env, s) != "" ==> !env.space(LeftStripped(env, s)[0])
  {
    if s != "" && env.space(s[0]) { LeftStrippedStarts(env, s[1..]); }
  }

  lemma {:induction false} RightStrippedEnds(env: Env, s: string)
    ensures var t := RightStripped(env, s);
      |t| <= |s| && (t != "" ==> !env.space(t[|t| - 1]) && t[0] == s[0])
  {
    if s != "" && env.space(s[|s| - 1]) { RightStrippedEnds(env, s[..|s| - 1]); }
  }

  lemma StrippedTwice(env: Env, s: string)
    ensures Stripped(env, Stripped(env, s)) == Stripped(env, s)
  {
    LeftStrippedStarts(env, s);
    RightStrippedEnds(env, LeftStripped(env, s));
  }

  lemma DecideDeclared(entries: seq<Entry>, i: nat)
    requires i < |entries| && DistinctNames(entries) && Declares(entries[i].key)
    ensures Decide(entries, entries[i].key.name) == Some(i)
  {
  }

  /** Entry `i` has a default and decided no key of `m`. */
  predicate Fills(entries: seq<Entry>, m: map<string, Data>, i: nat)
    requires i < |entries|
  {
    !entries[i].key.Required? && entries[i].value.Default? && !Covered(entries, m, i)
  }

  lemma {:induction false} FilledFrom(entries: seq<Entry>, m: map<string, Data>, n: nat, kept: map<string, Data>,
                                      k: string)
    requires n <= |entries| && k in Filled(entries, m, n, kept)
    ensures (k in kept && Filled(entries, m, n, kept)[k] == kept[k])
            || exists i :: 0 <= i < n && Fills(entries, m, i) && DefaultKey(entries[i].key) == k
                           && Filled(entries, m, n, kept)[k] == entries[i].value.default
  {
    if n > 0 {
      if Fills(entries, m, n - 1) && DefaultKey(entries[n - 1].key) == k {
      } else {
        FilledFrom(entries, m, n - 1, kept, k);
      }
    }
  }

  lemma {:induction false} FilledHas(entries: seq<Entry>, m: map<string, Data>, n: nat, kept: map<string, Data>)
    requires n <= |entries|
    ensures forall k :: k in kept ==> k in Filled(entries, m, n, kept)
    ensures forall i :: 0 <= i < n && Fills(entries, m, i) ==> DefaultKey(entries[i].key) in Filled(entries, m, n, kept)
  {
    if n > 0 { FilledHas(entries, m, n - 1, kept); }
  }

  lemma {:induction false} FilledNothing(entries: seq<Entry>, m: map<string, Data>, n: nat, kept: map<string, Data>)
    requires n <= |entries| && forall i :: 0 <= i < n ==> !Fills(entries, m, i)
    ensures Filled(entries, m, n, kept) == kept
  {
    if n > 0 {
      FilledNothing(entries, m, n - 1, kept);
      assert !Fills(entries, m, n - 1);
    }
  }

  /** A field of the result of validating `m`: a validated field of `m`, the default of an absent optional key, or the
      default of a catch-all. */
  ghost predicate FieldFrom(env: Env, s: Schema, m: map<string, Data>, k: string, v: Data)
    requires s.DictOf?
  {
    || (k in m && IsKept(s.entries, k) && Valid(env, s.entries[Decide(s.entries, k).value].value, m[k]) == Ok(v))
    || (exists i :: 0 <= i < |s.entries| && s.entries[i].key == Optional(k) && Fills(s.entries, m, i)
                    && v == s.entries[i].value.default)
    || (k == "" && exists i: nat :: CatchAllDefault(s.entries, i) && v == s.entries[i].value.default)
  }

  lemma KeptValue(env: Env, s: Schema, m: map<string, Data>, k: string)
    requires s.DictOf? && KeysAccepted(env, s, m) && k in Kept(env, s, m)
    ensures k in m && IsKept(s.entries, k)
    ensures Valid(env, s.entries[Decide(s.entries, k).value].value, m[k]) == Ok(Kept(env, s, m)[k])
  {
    assert KeyAccepted(env, s, k, m[k]);
    assert Kept(env, s, m)[k] == ValidValue(env, s, k, m[k]);
  }

  lemma FieldsFrom(env: Env, s: Schema, m: map<string, Data>, y: map<string, Data>, k: string)
    requires s.DictOf? && ValidFields(env, s, m) == Ok(Dict(y)) && k in y
    ensures FieldFrom(env, s, m, k, y[k])
  {
    hide Filled;
    var kept := Kept(env, s, m);
    FilledFrom(s.entries, m, |s.entries|, kept, k);
    if k in kept && y[k] == kept[k] {
      KeptValue(env, s, m, k);
    } else {
      var i :| 0 <= i < |s.entries| && Fills(s.entries, m, i) && DefaultKey(s.entries[i].key) == k
          && y[k] == s.entries[i].value.default;
      assert s.entries[i].key == Optional(k) || CatchAllDefault(s.entries, i);
    }
  }

  /** Every kept key, and every optional key with a default, is in the result. */
  lemma FieldsPresent(env: Env, s: Schema, m: map<string, Data>, y: map<string, Data>)
    requires s.DictOf? && DistinctNames(s.entries) && ValidFields(env, s, m) == Ok(Dict(y))
    ensures forall k :: k in m && IsKept(s.entries, k) ==> k in y
    ensures forall i :: 0 <= i < |s.entries| && s.entries[i].key.Required? ==> s.entries[i].key.name in y
    ensures forall i :: 0 <= i < |s.entries| && s.entries[i].key.Optional? && s.entries[i].value.Default? ==>
              s.entries[i].key.name in y
  {
    var kept := Kept(env, s, m);
    FilledHas(s.entries, m, |s.entries|, kept);
    forall i | 0 <= i < |s.entries| && Declares(s.entries[i].key) && Covered(s.entries, m, i)
      ensures s.entries[i].key.name in y
    {
      var k :| k in m && Decide(s.entries, k) == Some(i);
      assert k == s.entries[i].key.name && k in kept;
    }
    forall i | 0 <= i < |s.entries| && s.entries[i].key.Optional? && s.entries[i].value.Default?
        && !Covered(s.entries, m, i)
      ensures s.entries[i].key.name in y
    {
      assert Fills(s.entries, m, i);
    }
  }

  /** Whatever validation returns, validation returns unchanged. */
  lemma {:induction false} Projection(env: Env, s: Schema, x: Data, y: Data)
    requires Wf(env, s) && Valid(env, s, x) == Ok(y)
    ensures Valid(env, s, y) == Ok(y)
    decreases s, 1, 0
  {
    match s {
      case StrVal(_, _, _) => StrippedTwice(env, x.s);
      case ListVal(element, sep, _) => ItemsProjection(env, element, AsList(x, sep).value, y.items);
      case ListOf(element) => ItemsProjection(env, element, x.items, y.items);
      case Default(inner, _) => Projection(env, inner, x, y);
      case DictOf(_) => FieldsProjection(env, s, x.fields, y.fields);
      case _ =>
    }
  }

  lemma {:induction false} ItemsProjection(env: Env, element: Schema, items: seq<Data>, vs: seq<Data>)
    requires Wf(env, element) && ValidItems(env, element, items) == Ok(vs)
    ensures ValidItems(env, element, vs) == Ok(vs)
    decreases element, 2, |items|
  {
    if items != [] {
      Projection(env, element, items[0], vs[0]);
      var rest := ValidItems(env, element, items[1..]).value;
      assert vs[1..] == rest;
      ItemsProjection(env, element, items[1..], rest);
    }
  }

  lemma {:induction false} FieldProjection(env: Env, s: Schema, m: map<string, Data>, k: string, v: Data)
    requires s.DictOf? && Wf(env, s) && FieldFrom(env, s, m, k, v)
    ensures KeyAccepted(env, s, k, v)
    ensures k != "" || (forall i: nat :: !CatchAllDefault(s.entries, i)) ==> SettledField(env, s, k, v)
    decreases s, 0, 0
  {
    if k in m && IsKept(s.entries, k) && Valid(env, s.entries[Decide(s.entries, k).value].value, m[k]) == Ok(v) {
      Projection(env, s.entries[Decide(s.entries, k).value].value, m[k], v);
    } else if i :| 0 <= i < |s.entries| && s.entries[i].key == Optional(k) && Fills(s.entries, m, i)
                   && v == s.entries[i].value.default {
      DecideDeclared(s.entries, i);
      assert Wf(env, s.entries[i].value);
    }
  }

  lemma DecideUndeclared(entries: seq<Entry>, k: string, l: string)
    requires !Declared(entries, k) && !Declared(entries, l)
    ensures Decide(entries, k) == Decide(entries, l)
    ensures Decide(entries, k).Some? ==> !Declares(entries[Decide(entries, k).value].key)
  {
  }

  /** A catch-all decides no declared key. */
  lemma DeclaredIsNotCaught(entries: seq<Entry>, k: string, i: nat)
    requires i < |entries| && !Declares(entries[i].key) && Decide(entries, k) == Some(i)
    ensures !Declared(entries, k)
  {
    assert First(entries, Required(k)).None? && First(entries, Optional(k)).None?;
  }

  /** If entry `i` alone has a default to fill in, filling adds that default and nothing else. */
  lemma {:induction false} FilledOne(entries: seq<Entry>, m: map<string, Data>, n: nat, kept: map<string, Data>, i: nat)
    requires n <= |entries| && i < |entries| && Fills(entries, m, i)
    requires forall j :: 0 <= j < |entries| && Fills(entries, m, j) ==> j == i
    ensures Filled(entries, m, n, kept) == if i < n then kept[DefaultKey(entries[i].key) := entries[i].value.default]
              else kept
  {
    if n > 0 {
      FilledOne(entries, m, n - 1, kept, i);
      assert n - 1 != i ==> !Fills(entries, m, n - 1);
    }
  }

  /** A catch-all default that is filled in is the value of the empty key. */
  lemma {:induction false} FilledEmptyKey(entries: seq<Entry>, m: map<string, Data>, n: nat, kept: map<string, Data>,
                                          i: nat)
    requires OneCatchAllDefault(entries) && CatchAllDefault(entries, i) && Fills(entries, m, i) && i < n <= |entries|
    ensures "" in Filled(entries, m, n, kept) && Filled(entries, m, n, kept)[""] == entries[i].value.default
  {
    var e := entries[n - 1];
    if i < n - 1 {
      FilledEmptyKey(entries, m, n - 1, kept, i);
      assert Fills(entries, m, n - 1) ==> !CatchAllDefault(entries, n - 1);
      assert Declares(e.key) ==> e.key.name != "";
    }
  }

  lemma {:induction false} FieldsProjection(env: Env, s: Schema, m: map<string, Data>, y: map<string, Data>)
    requires s.DictOf? && Wf(env, s) && ValidFields(env, s, m) == Ok(Dict(y))
    ensures ValidFields(env, s, y) == Ok(Dict(y))
    decreases s, 0, 1
  {
    forall k | k in y
      ensures KeyAccepted(env, s, k, y[k])
      ensures k != "" || (forall i: nat :: !CatchAllDefault(s.entries, i)) ==> SettledField(env, s, k, y[k])
    {
      FieldsFrom(env, s, m, y, k);
      FieldProjection(env, s, m, k, y[k]);
    }
    if i: nat :| CatchAllDefault(s.entries, i) {
      if "" in y && Covered(s.entries, m, i) { EmptyKeySettled(env, s, m, y, i); }
      CatchAllProjection(env, s, m, y, i);
    } else {
      SettledAgain(env, s, m, y);
    }
  }

  /** A second validation keeps this field as it is. */
  predicate SettledField(env: Env, s: Schema, k: string, v: Data)
    requires s.DictOf?
  {
    IsKept(s.entries, k) && Valid(env, s.entries[Decide(s.entries, k).value].value, v) == Ok(v)
  }

  predicate SettledFields(env: Env, s: Schema, y: map<string, Data>)
    requires s.DictOf?
  {
    forall k :: k in y ==> KeyAccepted(env, s, k, y[k]) && (k != "" ==> SettledField(env, s, k, y[k]))
  }

  /** After the first validation every declared entry that matters is covered. */
  lemma CoveredAgain(env: Env, s: Schema, m: map<string, Data>, y: map<string, Data>)
    requires s.DictOf? && DistinctNames(s.entries) && ValidFields(env, s, m) == Ok(Dict(y))
    ensures RequiredPresent(s.entries, y)
    ensures forall j :: 0 <= j < |s.entries| && Fills(s.entries, y, j) ==> CatchAllDefault(s.entries, j)
  {
    FieldsPresent(env, s, m, y);
    forall j | 0 <= j < |s.entries| && Declares(s.entries[j].key) && s.entries[j].key.name in y
      ensures Covered(s.entries, y, j)
    {
      DecideDeclared(s.entries, j);
    }
  }

  /** If all fields are settled and no catch-all fills in a default, the second validation changes nothing. */
  lemma SettledAgain(env: Env, s: Schema, m: map<string, Data>, y: map<string, Data>)
    requires s.DictOf? && DistinctNames(s.entries) && ValidFields(env, s, m) == Ok(Dict(y))
    requires forall k :: k in y ==> SettledField(env, s, k, y[k])
    requires forall i: nat :: CatchAllDefault(s.entries, i) ==> Covered(s.entries, y, i)
    ensures ValidFields(env, s, y) == Ok(Dict(y))
  {
    CoveredAgain(env, s, m, y);
    forall k | k in y ensures KeyAccepted(env, s, k, y[k]) {
      assert SettledField(env, s, k, y[k]);
    }
    assert KeysAccepted(env, s, y);
    assert Kept(env, s, y) == y;
    FilledNothing(s.entries, y, |s.entries|, y);
  }

  /** The second validation with the default of catch-all `i`, which is covered again or filled in again. */
  lemma CatchAllProjection(env: Env, s: Schema, m: map<string, Data>, y: map<string, Data>, i: nat)
    requires s.DictOf? && Wf(env, s) && ValidFields(env, s, m) == Ok(Dict(y)) && SettledFields(env, s, y)
    requires CatchAllDefault(s.entries, i)
    requires "" in y && Covered(s.entries, m, i) ==> SettledField(env, s, "", y[""])
    ensures ValidFields(env, s, y) == Ok(Dict(y))
  {
    var entries := s.entries;
    if Covered(entries, m, i) {
      var k :| k in m && Decide(entries, k) == Some(i);
      DeclaredIsNotCaught(entries, k, i);
      DecideUndeclared(entries, k, "");
      assert IsKept(entries, k);
      FieldsPresent(env, s, m, y);
      assert Covered(entries, y, i);
      SettledAgain(env, s, m, y);
    } else {
      FilledEmptyKey(entries, m, |entries|, Kept(env, s, m), i);
      assert y[""] == entries[i].value.default;
      if Decide(entries, "") == Some(i) {
        assert Covered(entries, y, i);
        assert Wf(env, entries[i].value);
        assert SettledField(env, s, "", y[""]);
        SettledAgain(env, s, m, y);
      } else {
        NeverCovered(entries, y, i);
        FilledAgain(env, s, m, y, i);
      }
    }
  }

  lemma NeverCovered(entries: seq<Entry>, y: map<string, Data>, i: nat)
    requires OneCatchAllDefault(entries) && CatchAllDefault(entries, i) && Decide(entries, "") != Some(i)
    ensures Fills(entries, y, i)
  {
    forall k | k in y ensures Decide(entries, k) != Some(i) {
      if Decide(entries, k) == Some(i) {
        DeclaredIsNotCaught(entries, k, i);
        DecideUndeclared(entries, k, "");
      }
    }
  }

  /** If the catch-all decided a key, its default was not filled in, so the empty key is a field like the others. */
  lemma {:induction false} EmptyKeySettled(env: Env, s: Schema, m: map<string, Data>, y: map<string, Data>, i: nat)
    requires s.DictOf? && Wf(env, s) && ValidFields(env, s, m) == Ok(Dict(y)) && "" in y
    requires CatchAllDefault(s.entries, i) && Covered(s.entries, m, i)
    ensures SettledField(env, s, "", y[""])
    decreases s, 0, 0
  {
    NotFilled(env, s, m, i);
    FilledFrom(s.entries, m, |s.entries|, Kept(env, s, m), "");
    KeptValue(env, s, m, "");
    Projection(env, s.entries[Decide(s.entries, "").value].value, m[""], y[""]);
  }

  lemma NotFilled(env: Env, s: Schema, m: map<string, Data>, i: nat)
    requires s.DictOf? && Wf(env, s) && CatchAllDefault(s.entries, i) && Covered(s.entries, m, i)
    ensures forall j :: 0 <= j < |s.entries| && Fills(s.entries, m, j) ==> DefaultKey(s.entries[j].key) != ""
  {
    forall j | 0 <= j < |s.entries| && Fills(s.entries, m, j) ensures DefaultKey(s.entries[j].key) != "" {
      assert CatchAllDefault(s.entries, j) ==> j == i;
      assert !Declared(s.entries, "");
    }
  }

  lemma FilledAgain(env: Env, s: Schema, m: map<string, Data>, y: map<string, Data>, i: nat)
    requires s.DictOf? && Wf(env, s) && ValidFields(env, s, m) == Ok(Dict(y)) && SettledFields(env, s, y)
    requires CatchAllDefault(s.entries, i) && Fills(s.entries, y, i)
    requires "" in y && y[""] == s.entries[i].value.default
    ensures ValidFields(env, s, y) == Ok(Dict(y))
  {
    hide Filled, SettledField, Fills, Covered, IsKept;
    CoveredAgain(env, s, m, y);
    hide Wf;
    OnlyOneFills(env, s, y, i);
    assert KeysAccepted(env, s, y);
    var kept := Kept(env, s, y);
    forall k | k in y && k != "" ensures k in kept && kept[k] == y[k] {
      KeptSettled(env, s, y, k);
    }
    FilledOne(s.entries, y, |s.entries|, kept, i);
    assert kept["" := y[""]] == y;
  }

  lemma OnlyOneFills(env: Env, s: Schema, y: map<string, Data>, i: nat)
    requires s.DictOf? && Wf(env, s) && CatchAllDefault(s.entries, i)
    requires forall j :: 0 <= j < |s.entries| && Fills(s.entries, y, j) ==> CatchAllDefault(s.entries, j)
    ensures forall j :: 0 <= j < |s.entries| && Fills(s.entries, y, j) ==> j == i
    ensures DefaultKey(s.entries[i].key) == ""
  {
  }

  lemma KeptSettled(env: Env, s: Schema, y: map<string, Data>, k: string)
    requires s.DictOf? && KeysAccepted(env, s, y) && k in y && SettledField(env, s, k, y[k])
    ensures k in Kept(env, s, y) && Kept(env, s, y)[k] == y[k]
  {
    KeptValue(env, s, y, k);
  }

  // ---------- When a default on a catch-all is a projection ----------

  /** Validation is a projection: whatever it returns, it returns unchanged. */
  ghost predicate IsProjection(env: Env, s: Schema) {
    forall x :: Valid(env, s, x).Ok? ==> Valid(env, s, Valid(env, s, x).value) == Valid(env, s, x)
  }

  ghost predicate Accepts(env: Env, s: Schema) {
    exists x :: Valid(env, s, x).Ok?
  }

  /** A dictionary schema is a projection exactly if its catch-all default is stable, or it accepts nothing at all. */
  lemma ProjectionExactly(env: Env, s: Schema)
    requires s.DictOf? && NearlyWf(env, s)
    ensures IsProjection(env, s) <==> StableCatchAlls(env, s) || !Accepts(env, s)
  {
    if StableCatchAlls(env, s) {
      forall x | Valid(env, s, x).Ok? ensures Valid(env, s, Valid(env, s, x).value) == Valid(env, s, x) {
        Projection(env, s, x, Valid(env, s, x).value);
      }
    } else if Accepts(env, s) {
      var x :| Valid(env, s, x).Ok?;
      assert x.Dict? && Valid(env, s, x) == ValidFields(env, s, x.fields);
      var i: nat :| CatchAllDefault(s.entries, i)
               && !(KeyAccepted(env, s, "", s.entries[i].value.default)
                    && !(s.entries[i].key.AutoDel? && Decide(s.entries, "") == Some(i)));
      UnstableChanges(env, s, x.fields, i);
    }
  }

  function DeclaredPart(entries: seq<Entry>, m: map<string, Data>): map<string, Data> {
    map k | k in m && Declared(entries, k) :: m[k]
  }

  /** The declared part of an accepted dictionary is accepted, and an unstable default changes its result. */
  lemma UnstableChanges(env: Env, s: Schema, m: map<string, Data>, i: nat)
    requires s.DictOf? && NearlyWf(env, s) && ValidFields(env, s, m).Ok? && CatchAllDefault(s.entries, i)
    requires KeyAccepted(env, s, "", s.entries[i].value.default) ==>
               s.entries[i].key.AutoDel? && Decide(s.entries, "") == Some(i)
    ensures !IsProjection(env, s)
  {
    var entries := s.entries;
    var x := DeclaredPart(entries, m);
    DeclaredPartAccepted(env, s, m);
    var y := ValidFields(env, s, x).value.fields;
    forall k | k in x ensures Decide(entries, k) != Some(i) {
      if Decide(entries, k) == Some(i) { DeclaredIsNotCaught(entries, k, i); }
    }
    assert Fills(entries, x, i);
    FilledEmptyKey(entries, x, |entries|, Kept(env, s, x), i);
    assert "" in y && y[""] == entries[i].value.default;
    if KeyAccepted(env, s, "", y[""]) && KeysAccepted(env, s, y) {
      EmptyKeyDropped(env, s, y, i);
    }
    assert Valid(env, s, Dict(x)) == ValidFields(env, s, x) == Ok(Dict(y));
    assert Valid(env, s, Dict(y)) == ValidFields(env, s, y) != Ok(Dict(y));
  }

  lemma DeclaredPartAccepted(env: Env, s: Schema, m: map<string, Data>)
    requires s.DictOf? && DistinctNames(s.entries) && ValidFields(env, s, m).Ok?
    ensures ValidFields(env, s, DeclaredPart(s.entries, m)).Ok?
  {
    var entries := s.entries;
    var x := DeclaredPart(entries, m);
    forall k | k in x ensures KeyAccepted(env, s, k, x[k]) {
      assert KeyAccepted(env, s, k, m[k]);
    }
    forall j | 0 <= j < |entries| && entries[j].key.Required? ensures Covered(entries, x, j) {
      assert Covered(entries, m, j);
      var k :| k in m && Decide(entries, k) == Some(j);
      assert k == entries[j].key.name && k in x;
    }
  }

  /** A catch-all that deletes keys deletes its own default. */
  lemma EmptyKeyDropped(env: Env, s: Schema, y: map<string, Data>, i: nat)
    requires s.DictOf? && NearlyWf(env, s) && KeysAccepted(env, s, y) && "" in y && CatchAllDefault(s.entries, i)
    requires s.entries[i].key.AutoDel? && Decide(s.entries, "") == Some(i)
    ensures ValidFields(env, s, y) != Ok(Dict(y))
  {
    var kept := Kept(env, s, y);
    assert Covered(s.entries, y, i) && "" !in kept;
    var z := Filled(s.entries, y, |s.entries|, kept);
    forall j | 0 <= j < |s.entries| && Fills(s.entries, y, j) ensures DefaultKey(s.entries[j].key) != "" {
      assert CatchAllDefault(s.entries, j) ==> j == i;
      assert !Declared(s.entries, "");
    }
    if "" in z {
      FilledFrom(s.entries, y, |s.entries|, kept, "");
      assert false;
    }
  }

  /** A `Default` that its constructor accepts is well-formed: its stored default is a fixed point. */
  lemma ConstructedDefaultIsWf(env: Env, inner: Schema, raw: Data)
    requires Wf(env, inner)
    ensures MakeDefault(env, inner, raw).Ok? ==> Wf(env, MakeDefault(env, inner, raw).value)
  {
    if Valid(env, inner, raw).Ok? {
      Projection(env, inner, raw, Valid(env, inner, raw).value);
    }
  }

  /** For example, a default on a catch-all that deletes keys: validating nothing adds an undeclared empty key, which
      the next validation deletes. */
  lemma CatchAllDefaultIsNoProjection(env: Env, d: Data)
    ensures var s := DictOf([Entry(AutoDel, Default(Instance(ObjectType), d))]);
      && Valid(env, s, Dict(map[])) == Ok(Dict(map["" := d]))
      && Valid(env, s, Dict(map["" := d])) == Ok(Dict(map[]))
  {
    var s := DictOf([Entry(AutoDel, Default(Instance(ObjectType), d))]);
    var m := map["" := d];
    assert First(s.entries, AutoDel) == Some(0);
    assert Decide(s.entries, "") == Some(0);
    assert Valid(env, Instance(ObjectType), d) == Ok(d) && Valid(env, s.entries[0].value, d) == Ok(d);
    assert KeyAccepted(env, s, "", d);
    assert KeysAccepted(env, s, m) && KeysAccepted(env, s, map[]);
    assert Kept(env, s, map[]) == map[] && Kept(env, s, m) == map[];
    assert Filled(s.entries, map[], 0, map[]) == map[] && Filled(s.entries, m, 0, map[]) == map[];
    assert !Covered(s.entries, map[], 0) && Covered(s.entries, m, 0);
    assert Filled(s.entries, map[], 1, map[]) == m && Filled(s.entries, m, 1, map[]) == map[];
  }

  // ---------- What the leaves accept and return ----------

  /** A boolean accepts booleans, integers, and "true" and "false" in any case. */
  lemma BoolValIs(env: Env, d: Data)
    ensures Valid(env, BoolVal, d) == Ok(Bool(true)) <==>
              || d == Bool(true) || (d.Int? && d.i != 0)
              || (d.Str? && |d.s| == 4 && d.s[0] in "tT" && d.s[1] in "rR" && d.s[2] in "uU" && d.s[3] in "eE")
    ensures Valid(env, BoolVal, d) == Ok(Bool(false)) <==>
              || d == Bool(false) || d == Int(0)
              || (d.Str? && |d.s| == 5 && d.s[0] in "fF" && d.s[1] in "aA" && d.s[2] in "lL" && d.s[3] in "sS"
                  && d.s[4] in "eE")
    ensures Valid(env, BoolVal, d) in {Ok(Bool(true)), Ok(Bool(false)), SchemaError}
  {
    if d.Str? {
      LowerIs(d.s);
      assert "true"[0] == 't' && "true"[1] == 'r' && "true"[2] == 'u' && "true"[3] == 'e';
      assert "false"[0] == 'f' && "false"[1] == 'a' && "false"[2] == 'l' && "false"[3] == 's' && "false"[4] == 'e';
      if Lower(d.s) == "true" {} else if Lower(d.s) == "false" {}
      assert |d.s| == 4 && d.s[0] in "tT" && d.s[1] in "rR" && d.s[2] in "uU" && d.s[3] in "eE" ==>
          Lower(d.s) == "true";
      assert |d.s| == 5 && d.s[0] in "fF" && d.s[1] in "aA" && d.s[2] in "lL" && d.s[3] in "sS" && d.s[4] in "eE" ==>
          Lower(d.s) == "false";
    }
  }

  lemma {:induction false} LowerIs(s: string)
    ensures |Lower(s)| == |s| && forall i :: 0 <= i < |s| ==> Lower(s)[i] == LowerChar(s[i])
  {
    if s != "" { LowerIs(s[1..]); }
  }

  /** An integer accepts what converts to a number among the values, or within the bounds if there are any, or any
      number if there are neither. Booleans count as 1 and 0 and stay booleans; floats are cut off towards zero. */
  lemma IntValIs(env: Env, min: Option<int>, max: Option<int>, values: seq<int>, d: Data, i: int, v: Data)
    requires || (d == Int(i) && v == d)
             || (d.Bool? && v == d && i == (if d.b then 1 else 0))
             || (d.Str? && env.parseInt(d.s) == Some(i) && v == Int(i))
             || (d.Real? && v == Int(i) && (d.r >= 0.0 ==> i as real <= d.r < (i + 1) as real)
                 && (d.r < 0.0 ==> (i - 1) as real < d.r <= i as real))
    ensures Valid(env, IntVal(min, max, values), d) ==
              if i in values
                 || ((min.Some? || max.Some? || values == []) && (min.Some? ==> i >= min.value)
                    && (max.Some? ==> i <= max.value))
              then Ok(v) else SchemaError
  {
  }

  /** Everything else is refused. */
  lemma IntValRefuses(env: Env, min: Option<int>, max: Option<int>, values: seq<int>, d: Data)
    requires d.Null? || d.List? || d.Dict? || (d.Str? && env.parseInt(d.s).None?)
    ensures Valid(env, IntVal(min, max, values), d) == SchemaError
  {
  }

  /** A float accepts what converts to a number within the bounds. */
  lemma FloatValIs(env: Env, min: Option<real>, max: Option<real>, d: Data)
    ensures Valid(env, FloatVal(min, max), d) ==
              var r := match d
                case Real(r) => Some(r)
                case Int(i) => Some(i as real)
                case Bool(b) => Some(if b then 1.0 else 0.0)
                case Str(s) => env.parseFloat(s)
                case _ => None;
              if r.Some? && (min.None? || min.value <= r.value) && (max.None? || r.value <= max.value)
              then Ok(Real(r.value)) else SchemaError
  {
  }

  /** A text is returned without the space around it, if what remains is of a length within the bounds and has no
      invalid character; only text is accepted. */
  lemma StrValIs(env: Env, min: Option<nat>, max: Option<nat>, invalid: seq<char>, s: string, a: nat, b: nat)
    requires IsCore(env, s, a, b)
    ensures Valid(env, StrVal(min, max, invalid), Str(s)) ==
              if (min.None? || min.value <= b - a) && (max.None? || b - a <= max.value)
                 && (forall i :: a <= i < b ==> s[i] !in invalid)
              then Ok(Str(s[a..b])) else SchemaError
  {
    StrippedIs(env, s, a, b);
    assert forall i :: a <= i < b ==> s[a..b][i - a] == s[i];
  }

  /** `s[a..b]` is what remains without the space around it. */
  ghost predicate IsCore(env: Env, s: string, a: nat, b: nat) {
    && a <= b <= |s|
    && (forall i :: 0 <= i < a ==> env.space(s[i])) && (forall i :: b <= i < |s| ==> env.space(s[i]))
    && (a < b ==> !env.space(s[a]) && !env.space(s[b - 1]))
  }

  lemma StrValRefuses(env: Env, min: Option<nat>, max: Option<nat>, invalid: seq<char>, d: Data)
    requires !d.Str?
    ensures Valid(env, StrVal(min, max, invalid), d) == SchemaError
  {
  }

  /** Every text has such a core. */
  lemma {:induction false} HasCore(env: Env, s: string) returns (a: nat, b: nat)
    ensures IsCore(env, s, a, b)
  {
    a, b := 0, |s|;
    while a < b && env.space(s[a])
      invariant a <= b && forall i :: 0 <= i < a ==> env.space(s[i])
    {
      a := a + 1;
    }
    while a < b && env.space(s[b - 1])
      invariant a <= b <= |s| && forall i :: b <= i < |s| ==> env.space(s[i])
    {
      b := b - 1;
    }
  }

  lemma {:induction false} StrippedIs(env: Env, s: string, a: nat, b: nat)
    requires IsCore(env, s, a, b)
    ensures Stripped(env, s) == s[a..b]
  {
    if a == b {
      LeftStrippedAt(env, s, |s|);
    } else {
      LeftStrippedAt(env, s, a);
      RightStrippedAt(env, s[a..], b - a);
      assert s[a..][..b - a] == s[a..b];
    }
  }

  lemma {:induction false} LeftStrippedAt(env: Env, s: string, a: nat)
    requires a <= |s| && (forall i :: 0 <= i < a ==> env.space(s[i])) && (a < |s| ==> !env.space(s[a]))
    ensures LeftStripped(env, s) == s[a..]
  {
    if a > 0 {
      LeftStrippedAt(env, s[1..], a - 1);
      assert s[1..][a - 1..] == s[a..];
    } else {
      assert s[0..] == s;
    }
  }

  lemma {:induction false} RightStrippedAt(env: Env, s: string, b: nat)
    requires b <= |s| && (forall i :: b <= i < |s| ==> env.space(s[i])) && (b > 0 ==> !env.space(s[b - 1]))
    ensures RightStripped(env, s) == s[..b]
  {
    if b < |s| {
      RightStrippedAt(env, s[..|s| - 1], b);
      assert s[..|s| - 1][..b] == s[..b];
    } else {
      assert s[..|s|] == s;
    }
  }

  /** The other leaves. */
  lemma PlainLeavesAre(env: Env, d: Data, choices: seq<string>, pattern: int, text: string)
    ensures Valid(env, EnumVal(choices), d) == if d.Str? && d.s in choices then Ok(d) else SchemaError
    ensures Valid(env, Literal(text), d) == if d == Str(text) then Ok(d) else SchemaError
    ensures d.Str? ==> Valid(env, StrRe(pattern), d) == if env.matches(pattern, d.s) then Ok(d) else SchemaError
    ensures !d.Str? ==> (Valid(env, StrRe(pattern), d) ==
                         if env.matches(pattern, env.render(d)) then Ok(Str(env.render(d))) else SchemaError)
  {
  }

  /** A default changes nothing for a value that is there, and its constructor stores it validated or refuses it. */
  lemma DefaultIs(env: Env, inner: Schema, raw: Data, d: Data)
    ensures Valid(env, Default(inner, raw), d) == Valid(env, inner, d)
    ensures Valid(env, inner, raw).SchemaError? ==> MakeDefault(env, inner, raw).SchemaError?
    ensures Valid(env, inner, raw).Ok? ==>
              MakeDefault(env, inner, raw) == Ok(Default(inner, Valid(env, inner, raw).value))
  {
  }

  /** A type accepts its values; booleans are integers, and everything is an object. */
  lemma InstancesAre(env: Env, d: Data)
    ensures Valid(env, Instance(StrType), d) == if d.Str? then Ok(d) else SchemaError
    ensures Valid(env, Instance(IntType), d) == if d.Int? || d.Bool? then Ok(d) else SchemaError
    ensures Valid(env, Instance(BoolType), d) == if d.Bool? then Ok(d) else SchemaError
    ensures Valid(env, Instance(FloatType), d) == if d.Real? then Ok(d) else SchemaError
    ensures Valid(env, Instance(ListType), d) == if d.List? then Ok(d) else SchemaError
    ensures Valid(env, Instance(DictType), d) == if d.Dict? then Ok(d) else SchemaError
    ensures Valid(env, Instance(ObjectType), d) == Ok(d)
  {
  }

  /** A list accepts a list, nothing and the empty text as the empty list, and other text as its parts; it returns the
      validated items in order, if all are accepted and there are not too many. */
  lemma ListValIs(env: Env, element: Schema, sep: char, max: Option<nat>, d: Data, items: seq<Data>, parts: seq<string>)
    requires || d == List(items)
             || ((d == Null || d == Str("")) && items == [])
             || (d.Str? && d.s != "" && parts != [] && (forall i :: 0 <= i < |parts| ==> sep !in parts[i])
                 && d.s == Join(parts, sep) && |items| == |parts| && forall i :: 0 <= i < |parts| ==>
                    items[i] == Str(parts[i]))
    ensures var r := Valid(env, ListVal(element, sep, max), d);
      && (r.Ok? <==> (max.None? || |items| <= max.value) && forall i :: 0 <= i < |items| ==>
         Valid(env, element, items[i]).Ok?)
      && (r.Ok? ==> r.value.List? && |r.value.items| == |items|
                    && forall i :: 0 <= i < |items| ==> Valid(env, element, items[i]) == Ok(r.value.items[i]))
    ensures max.None? && d.List? ==> Valid(env, ListOf(element), d) == Valid(env, ListVal(element, sep, max), d)
  {
    if d.Str? && d.s != "" {
      JoinSplit(parts, sep);
      TextsAre(parts);
      assert Texts(parts) == items;
    }
    ValidItemsAre(env, element, items);
  }

  lemma ListValRefuses(env: Env, element: Schema, sep: char, max: Option<nat>, d: Data)
    requires d.Bool? || d.Int? || d.Real? || d.Dict?
    ensures Valid(env, ListVal(element, sep, max), d) == SchemaError && Valid(env, ListOf(element), d) == SchemaError
  {
  }

  lemma {:induction false} TextsAre(parts: seq<string>)
    ensures |Texts(parts)| == |parts| && forall i :: 0 <= i < |parts| ==> Texts(parts)[i] == Str(parts[i])
  {
    if parts != [] { TextsAre(parts[1..]); }
  }

  lemma {:induction false} ValidItemsAre(env: Env, element: Schema, items: seq<Data>)
    ensures var r := ValidItems(env, element, items);
      && (r.Ok? <==> forall i :: 0 <= i < |items| ==> Valid(env, element, items[i]).Ok?)
      && (r.Ok? ==> |r.value| == |items| && forall i :: 0 <= i < |items| ==>
         Valid(env, element, items[i]) == Ok(r.value[i]))
    decreases |items|
  {
    if items != [] {
      ValidItemsAre(env, element, items[1..]);
      assert forall i :: 0 < i < |items| ==> items[i] == items[1..][i - 1];
      if forall i :: 0 <= i < |items| ==> Valid(env, element, items[i]).Ok? {
        assert forall i :: 0 <= i < |items[1..]| ==> items[1..][i] == items[i + 1];
      }
    }
  }

  // ---------- What a dictionary accepts and returns ----------

  /** Entry `c` decides the undeclared keys: the first `AutoDel`, or without one the first `DoNotCare`. */
  ghost predicate CatchAll(entries: seq<Entry>, c: Option<nat>) {
    && (c.None? ==> forall i :: 0 <= i < |entries| ==> Declares(entries[i].key))
    && (c.Some? ==>
          && c.value < |entries| && !Declares(entries[c.value].key)
          && (forall i :: 0 <= i < c.value ==> entries[i].key != entries[c.value].key)
          && (entries[c.value].key.DoNotCare? ==> forall i :: 0 <= i < |entries| ==> !entries[i].key.AutoDel?))
  }

  lemma DecideUndeclaredIs(entries: seq<Entry>, c: Option<nat>, k: string)
    requires CatchAll(entries, c) && !Declared(entries, k)
    ensures Decide(entries, k) == c
  {
  }

  /** A dictionary is accepted exactly if every required key is there, the value of every declared key is accepted by
      its own entry, and every undeclared key is accepted by the catch-all; without one there must be none, unless the
      schema has no entry at all. */
  lemma DictAccepts(env: Env, entries: seq<Entry>, c: Option<nat>, m: map<string, Data>)
    requires DistinctNames(entries) && CatchAll(entries, c)
    ensures Valid(env, DictOf(entries), Dict(m)).Ok? <==>
              && (forall i :: 0 <= i < |entries| && entries[i].key.Required? ==> entries[i].key.name in m)
              && (forall i :: 0 <= i < |entries| && Declares(entries[i].key) && entries[i].key.name in m ==>
                    Valid(env, entries[i].value, m[entries[i].key.name]).Ok?)
              && (forall k :: k in m && !Declared(entries, k) ==>
                    if c.Some? then Valid(env, entries[c.value].value, m[k]).Ok? else entries == [])
  {
    var s := DictOf(entries);
    OwnKeysAccepted(env, entries, c, m);
    forall i | 0 <= i < |entries| && entries[i].key.Required?
      ensures Covered(entries, m, i) <==> entries[i].key.name in m
    {
      DecideDeclared(entries, i);
      if Covered(entries, m, i) {
        var k :| k in m && Decide(entries, k) == Some(i);
        assert k == entries[i].key.name;
      }
    }
    assert Valid(env, s, Dict(m)).Ok? <==> KeysAccepted(env, s, m) && RequiredPresent(entries, m);
  }

  lemma OwnKeysAccepted(env: Env, entries: seq<Entry>, c: Option<nat>, m: map<string, Data>)
    requires DistinctNames(entries) && CatchAll(entries, c)
    ensures KeysAccepted(env, DictOf(entries), m) <==>
              && (forall i :: 0 <= i < |entries| && Declares(entries[i].key) && entries[i].key.name in m ==>
                    Valid(env, entries[i].value, m[entries[i].key.name]).Ok?)
              && (forall k :: k in m && !Declared(entries, k) ==>
                    if c.Some? then Valid(env, entries[c.value].value, m[k]).Ok? else entries == [])
  {
    var s := DictOf(entries);
    forall k | k in m && !Declared(entries, k)
      ensures KeyAccepted(env, s, k, m[k]) <==>
                if c.Some? then Valid(env, entries[c.value].value, m[k]).Ok? else entries == []
    {
      DecideUndeclaredIs(entries, c, k);
    }
    forall i | 0 <= i < |entries| && Declares(entries[i].key) && entries[i].key.name in m
      ensures KeyAccepted(env, s, entries[i].key.name, m[entries[i].key.name]) <==>
                Valid(env, entries[i].value, m[entries[i].key.name]).Ok?
    {
      DecideDeclared(entries, i);
    }
    hide KeyAccepted, Valid;
  }

  /** A dictionary schema accepts nothing but dictionaries. */
  lemma DictRefuses(env: Env, entries: seq<Entry>, d: Data)
    requires !d.Dict?
    ensures Valid(env, DictOf(entries), d) == SchemaError
  {
  }

  /** What it returns under a declared key: the validated value, or the default of an absent optional key. */
  lemma DictReturnsDeclared(env: Env, entries: seq<Entry>, m: map<string, Data>, y: map<string, Data>, i: nat)
    requires DistinctNames(entries) && OneCatchAllDefault(entries)
    requires Valid(env, DictOf(entries), Dict(m)) == Ok(Dict(y)) && i < |entries| && Declares(entries[i].key)
    ensures var (k, v) := (entries[i].key.name, entries[i].value);
      && (k in m ==> k in y && Valid(env, v, m[k]) == Ok(y[k]))
      && (k !in m && v.Default? ==> k in y && y[k] == v.default)
      && (k !in m && !v.Default? ==> k !in y)
  {
    var s := DictOf(entries);
    var k := entries[i].key.name;
    DecideDeclared(entries, i);
    FieldsPresent(env, s, m, y);
    if k in y {
      FieldsFrom(env, s, m, y, k);
      assert Declared(entries, k);
      assert k in m ==> Covered(entries, m, i);
    }
  }

  /** And under an undeclared key: the value validated by `DoNotCare`, nothing with `AutoDel`. */
  lemma DictReturnsUndeclared(env: Env, entries: seq<Entry>, c: Option<nat>, m: map<string, Data>, y: map<string, Data>,
                              k: string)
    requires DistinctNames(entries) && CatchAll(entries, c) && !Declared(entries, k)
    requires Valid(env, DictOf(entries), Dict(m)) == Ok(Dict(y))
    requires k != "" || forall j: nat :: !CatchAllDefault(entries, j)
    ensures k in y <==> k in m && c.Some? && entries[c.value].key.DoNotCare?
    ensures k in y ==> Valid(env, entries[c.value].value, m[k]) == Ok(y[k])
  {
    var s := DictOf(entries);
    DecideUndeclaredIs(entries, c, k);
    FieldsPresent(env, s, m, y);
    if k in y { FieldsFrom(env, s, m, y, k); }
  }

  // ---------- Completeness and key discipline ----------

  /** `y` has every required key and every optional key with a default, at every level. */
  ghost predicate Complete(s: Schema, y: Data)
    decreases s
  {
    match s
    case ListVal(element, _, _) => y.List? && forall i :: 0 <= i < |y.items| ==> Complete(element, y.items[i])
    case ListOf(element) => y.List? && forall i :: 0 <= i < |y.items| ==> Complete(element, y.items[i])
    case Default(inner, _) => Complete(inner, y)
    case DictOf(entries) => y.Dict? && forall i :: 0 <= i < |entries| ==> EntryComplete(s, i, y.fields)
    case _ => true
  }

  ghost predicate EntryComplete(s: Schema, i: nat, y: map<string, Data>)
    requires s.DictOf? && i < |s.entries|
    decreases s, 0
  {
    var e := s.entries[i];
    Declares(e.key) ==>
      && (e.key.Required? || e.value.Default? ==> e.key.name in y)
      && (e.key.name in y ==> Complete(e.value, y[e.key.name]))
  }

  /** Every successful validation of a dictionary, at any depth, has all required keys and all defaults. */
  lemma {:induction false} Completeness(env: Env, s: Schema, x: Data, y: Data)
    requires Wf(env, s) && Valid(env, s, x) == Ok(y)
    ensures Complete(s, y)
    decreases s, 1, 0
  {
    match s {
      case ListVal(element, sep, _) => ItemsComplete(env, element, AsList(x, sep).value, y.items);
      case ListOf(element) => ItemsComplete(env, element, x.items, y.items);
      case Default(inner, _) => Completeness(env, inner, x, y);
      case DictOf(entries) =>
        forall i | 0 <= i < |entries| ensures EntryComplete(s, i, y.fields) {
          FieldComplete(env, s, i, x.fields, y.fields);
        }
      case _ =>
    }
  }

  lemma {:induction false} ItemsComplete(env: Env, element: Schema, items: seq<Data>, vs: seq<Data>)
    requires Wf(env, element) && ValidItems(env, element, items) == Ok(vs)
    ensures forall i :: 0 <= i < |vs| ==> Complete(element, vs[i])
    decreases element, 2, |items|
  {
    if items != [] {
      Completeness(env, element, items[0], vs[0]);
      ItemsComplete(env, element, items[1..], vs[1..]);
    }
  }

  lemma {:induction false} FieldComplete(env: Env, s: Schema, i: nat, m: map<string, Data>, y: map<string, Data>)
    requires s.DictOf? && Wf(env, s) && i < |s.entries| && ValidFields(env, s, m) == Ok(Dict(y))
    ensures EntryComplete(s, i, y)
    decreases s, 0, 0
  {
    var e := s.entries[i];
    FieldsPresent(env, s, m, y);
    if Declares(e.key) && e.key.name in y {
      DecideDeclared(s.entries, i);
      FieldsFrom(env, s, m, y, e.key.name);
      FieldProjection(env, s, m, e.key.name, y[e.key.name]);
      Completeness(env, e.value, y[e.key.name], y[e.key.name]);
    }
  }

  /** An ill-typed value of a declared key makes the validation fail, whatever catch-all there is. */
  lemma IllTypedFails(env: Env, s: Schema, m: map<string, Data>, i: nat)
    requires s.DictOf? && DistinctNames(s.entries) && i < |s.entries| && Declares(s.entries[i].key)
    requires s.entries[i].key.name in m && Valid(env, s.entries[i].value, m[s.entries[i].key.name]).SchemaError?
    ensures Valid(env, s, Dict(m)) == SchemaError
  {
    DecideDeclared(s.entries, i);
    assert !KeyAccepted(env, s, s.entries[i].key.name, m[s.entries[i].key.name]);
    assert !KeysAccepted(env, s, m);
  }

  predicate HasKey(entries: seq<Entry>, key: Key) {
    exists i :: 0 <= i < |entries| && entries[i].key == key
  }

  /** Without a catch-all an undeclared key makes the validation fail, unless the schema is empty. */
  lemma UndeclaredFails(env: Env, s: Schema, m: map<string, Data>, k: string)
    requires s.DictOf? && s.entries != [] && !HasKey(s.entries, AutoDel) && !HasKey(s.entries, DoNotCare)
    requires k in m && !Declared(s.entries, k)
    ensures Valid(env, s, Dict(m)) == SchemaError
  {
    assert Decide(s.entries, k).None?;
    assert !KeyAccepted(env, s, k, m[k]);
    assert !KeysAccepted(env, s, m);
  }

  /** With an `AutoDel(str)` catch-all no undeclared key survives, but for the empty key of a catch-all default;
      `DoNotCare(str)` beside it changes nothing. */
  lemma OnlyDeclaredSurvive(env: Env, s: Schema, m: map<string, Data>, y: map<string, Data>)
    requires s.DictOf? && Wf(env, s) && HasKey(s.entries, AutoDel) && Valid(env, s, Dict(m)) == Ok(Dict(y))
    ensures forall k :: k in y ==> Declared(s.entries, k) || (k == "" && exists i: nat :: CatchAllDefault(s.entries, i))
  {
    forall k | k in y && (k != "" || forall i: nat :: !CatchAllDefault(s.entries, i)) ensures Declared(s.entries, k) {
      FieldsFrom(env, s, m, y, k);
    }
  }

  /** A schema without any entry accepts every dictionary and drops all its keys. */
  lemma EmptySchemaDrops(env: Env, m: map<string, Data>)
    ensures Valid(env, DictOf([]), Dict(m)) == Ok(Dict(map[]))
  {
    var s := DictOf([]);
    forall k | k in m ensures KeyAccepted(env, s, k, m[k]) {
      assert Decide([], k).None?;
    }
    assert Kept(env, s, m) == map[];
    assert Filled([], m, 0, map[]) == map[];
  }

  // ---------- The engine ----------

  function WithPriority(entries: seq<Entry>, p: int, n: nat): seq<nat>
    requires n <= |entries|
  {
    if n == 0 then []
    else WithPriority(entries, p, n - 1) + (if Priority(entries[n - 1].key) == p then [n - 1] else [])
  }

  /** `sorted(s, key=priority)`: by priority, and in the order written within one priority. */
  function Sorted(entries: seq<Entry>): seq<nat> {
    WithPriority(entries, 1, |entries|) + WithPriority(entries, 7, |entries|)
    + WithPriority(entries, 8, |entries|) + WithPriority(entries, 9, |entries|)
  }

  lemma {:induction false} WithPriorityIs(entries: seq<Entry>, p: int, n: nat)
    requires n <= |entries|
    ensures var w := WithPriority(entries, p, n);
      && (forall a :: 0 <= a < |w| ==> w[a] < n && Priority(entries[w[a]].key) == p)
      && (forall a, b :: 0 <= a < b < |w| ==> w[a] < w[b])
      && (forall i :: 0 <= i < n && Priority(entries[i].key) == p ==> i in w)
  {
    if n > 0 { WithPriorityIs(entries, p, n - 1); }
  }

  predicate Before(entries: seq<Entry>, i: nat, j: nat)
    requires i < |entries| && j < |entries|
  {
    Priority(entries[i].key) < Priority(entries[j].key)
      || (Priority(entries[i].key) == Priority(entries[j].key) && i < j)
  }

  predicate InOrder(entries: seq<Entry>, w: seq<nat>) {
    && (forall a :: 0 <= a < |w| ==> w[a] < |entries|)
    && (forall a, b :: 0 <= a < b < |w| ==> Before(entries, w[a], w[b]))
  }

  lemma InOrderJoins(entries: seq<Entry>, p: int, u: seq<nat>, v: seq<nat>)
    requires InOrder(entries, u) && InOrder(entries, v)
    requires forall a :: 0 <= a < |u| ==> Priority(entries[u[a]].key) < p
    requires forall b :: 0 <= b < |v| ==> Priority(entries[v[b]].key) >= p
    ensures InOrder(entries, u + v)
  {
  }

  lemma SortedHasAll(entries: seq<Entry>)
    ensures forall i :: 0 <= i < |entries| ==> i in Sorted(entries)
  {
    forall i | 0 <= i < |entries| ensures i in Sorted(entries) {
      var p := Priority(entries[i].key);
      assert p == 1 || p == 7 || p == 8 || p == 9;
      WithPriorityIs(entries, p, |entries|);
      assert i in WithPriority(entries, p, |entries|);
    }
  }

  lemma SortedIs(entries: seq<Entry>)
    ensures InOrder(entries, Sorted(entries))
    ensures forall i :: 0 <= i < |entries| ==> i in Sorted(entries)
  {
    SortedHasAll(entries);
    var w1, w7, w8, w9 := WithPriority(entries, 1, |entries|), WithPriority(entries, 7, |entries|),
                          WithPriority(entries, 8, |entries|), WithPriority(entries, 9, |entries|);
    WithPriorityIs(entries, 1, |entries|);
    WithPriorityIs(entries, 7, |entries|);
    WithPriorityIs(entries, 8, |entries|);
    WithPriorityIs(entries, 9, |entries|);
    InOrderJoins(entries, 2, w1, w7);
    InOrderJoins(entries, 8, w1 + w7, w8);
    InOrderJoins(entries, 9, w1 + w7 + w8, w9);
  }

  /** The deciding entry comes before every other entry that matches. */
  lemma DecideIsFirst(entries: seq<Entry>, name: string)
    ensures Decide(entries, name).None? ==> forall i :: 0 <= i < |entries| ==> !Matches(entries[i].key, name)
    ensures var r := Decide(entries, name);
      r.Some? ==> forall i :: 0 <= i < |entries| && Matches(entries[i].key, name) && i != r.value ==>
        Before(entries, r.value, i)
  {
    forall i | 0 <= i < |entries| && Matches(entries[i].key, name)
      ensures Decide(entries, name).Some?
                && (i != Decide(entries, name).value ==> Before(entries, Decide(entries, name).value, i))
    {
      var k := entries[i].key;
      assert k == Required(name) || k == Optional(name) || k == AutoDel || k == DoNotCare;
      assert First(entries, k).Some?;
    }
  }

  /** The inner loop of `Schema.validate`: the first entry, by priority, that accepts the key. */
  method FindEntry(entries: seq<Entry>, name: string) returns (r: Option<nat>)
    ensures r == Decide(entries, name)
  {
    var order := Sorted(entries);
    SortedIs(entries);
    DecideIsFirst(entries, name);
    var a := 0;
    while a < |order|
      invariant a <= |order| && forall b :: 0 <= b < a ==> !Matches(entries[order[b]].key, name)
    {
      if Matches(entries[order[a]].key, name) {
        var best := Decide(entries, name).value;
        assert best in order;
        return Some(order[a]);
      }
      a := a + 1;
    }
    forall i | 0 <= i < |entries| ensures !Matches(entries[i].key, name) {
      assert i in order;
    }
    return None;
  }

  /** The engine computes `Valid`. */
  method Validate(env: Env, s: Schema, d: Data) returns (r: Result<Data>)
    ensures r == Valid(env, s, d)
    decreases s, 4, 0
  {
    match s {
      case ListVal(element, sep, maxItems) =>
        var items := AsList(d, sep);
        if items.None? || (maxItems.Some? && |items.value| > maxItems.value) {
          return SchemaError;
        }
        var vs := ValidateItems(env, element, items.value);
        return ListResult(vs);
      case ListOf(element) =>
        if !d.List? {
          return SchemaError;
        }
        var vs := ValidateItems(env, element, d.items);
        return ListResult(vs);
      case Default(inner, _) =>
        r := Validate(env, inner, d);
      case DictOf(_) =>
        if !d.Dict? {
          return SchemaError;
        }
        r := ValidateFields(env, s, d.fields);
      case _ =>
        r := Valid(env, s, d);
    }
  }

  function Prepended(vs: seq<Data>, r: Result<seq<Data>>): Result<seq<Data>> {
    match r case SchemaError => SchemaError case Ok(ws) => Ok(vs + ws)
  }

  lemma PrependOne(env: Env, element: Schema, vs: seq<Data>, items: seq<Data>)
    requires items != []
    ensures Valid(env, element, items[0]).Ok? ==>
              Prepended(vs, ValidItems(env, element, items))
              == Prepended(vs + [Valid(env, element, items[0]).value], ValidItems(env, element, items[1..]))
    ensures Valid(env, element, items[0]).SchemaError? ==> ValidItems(env, element, items).SchemaError?
  {
    if Valid(env, element, items[0]).Ok? && ValidItems(env, element, items[1..]).Ok? {
      var v, ws := Valid(env, element, items[0]).value, ValidItems(env, element, items[1..]).value;
      assert vs + ([v] + ws) == (vs + [v]) + ws;
    }
  }

  method ValidateItems(env: Env, element: Schema, items: seq<Data>) returns (r: Result<seq<Data>>)
    ensures r == ValidItems(env, element, items)
    decreases element, 5, 0
  {
    var vs, i := [], 0;
    ghost var r0 := ValidItems(env, element, items);
    assert items[0..] == items;
    assert r0 == Prepended([], r0) by { if r0.Ok? { assert [] + r0.value == r0.value; } }
    while i < |items|
      invariant i <= |items|
      invariant ValidItems(env, element, items) == Prepended(vs, ValidItems(env, element, items[i..]))
    {
      assert items[i..][1..] == items[i + 1..];
      PrependOne(env, element, vs, items[i..]);
      var v := Validate(env, element, items[i]);
      if v.SchemaError? {
        return SchemaError;
      }
      vs := vs + [v.value];
      i := i + 1;
    }
    assert items[i..] == [] && vs + [] == vs;
    return Ok(vs);
  }

  function Rest(m: map<string, Data>, pending: set<string>): map<string, Data> {
    map k | k in m && k !in pending :: m[k]
  }

  /** What the loop over the items has collected from the items `done`. */
  ghost predicate Collected(env: Env, s: Schema, done: map<string, Data>, new_: map<string, Data>, coverage: set<nat>)
    requires s.DictOf?
  {
    && KeysAccepted(env, s, done) && new_ == Kept(env, s, done)
    && forall i: nat :: i in coverage <==> Covered(s.entries, done, i)
  }

  lemma CollectOne(env: Env, s: Schema, m: map<string, Data>, pending: set<string>, k: string,
                   new_: map<string, Data>, coverage: set<nat>)
    requires s.DictOf? && k in m && k in pending && Collected(env, s, Rest(m, pending), new_, coverage)
    requires KeyAccepted(env, s, k, m[k])
    ensures Collected(env, s, Rest(m, pending - {k}),
                      if IsKept(s.entries, k) then new_[k := ValidValue(env, s, k, m[k])] else new_,
                      if Decide(s.entries, k).Some? then coverage + {Decide(s.entries, k).value} else coverage)
  {
    hide Valid, ValidValue, KeyAccepted, IsKept;
    var before, after := Rest(m, pending), Rest(m, pending - {k});
    assert forall j :: j in after ==> j == k || j in before;
    forall i: nat | Covered(s.entries, before, i) ensures Covered(s.entries, after, i) {
      var j :| j in before && Decide(s.entries, j) == Some(i);
      assert j in after;
    }
    assert k in after;
    assert Kept(env, s, after) == if IsKept(s.entries, k) then new_[k := ValidValue(env, s, k, m[k])] else new_;
  }

  /** The loop of `Schema.validate` over the items of a dictionary. */
  method ValidateFields(env: Env, s: Schema, m: map<string, Data>) returns (r: Result<Data>)
    requires s.DictOf?
    ensures r == ValidFields(env, s, m)
    decreases s, 3, 0
  {
    var new_: map<string, Data>, coverage: set<nat> := map[], {};
    var pending := m.Keys;
    while pending != {}
      invariant pending <= m.Keys && Collected(env, s, Rest(m, pending), new_, coverage)
      decreases |pending|
    {
      var k :| k in pending;
      ghost var new0, coverage0 := new_, coverage;
      var i := FindEntry(s.entries, k);
      if i.None? {
        if s.entries != [] {
          assert !KeyAccepted(env, s, k, m[k]);
          return SchemaError;
        }
      } else {
        var v := Validate(env, s.entries[i.value].value, m[k]);
        if v.SchemaError? {
          assert !KeyAccepted(env, s, k, m[k]);
          return SchemaError;
        }
        coverage := coverage + {i.value};
        if !s.entries[i.value].key.AutoDel? {
          new_ := new_[k := v.value];
        }
      }
      CollectOne(env, s, m, pending, k, new0, coverage0);
      pending := pending - {k};
    }
    assert Rest(m, pending) == m;
    r := Finish(env, s, m, new_, coverage);
  }

  /** The rest of `Schema.validate` on a dictionary: required keys, then defaults. */
  method Finish(env: Env, s: Schema, m: map<string, Data>, kept: map<string, Data>, coverage: set<nat>)
    returns (r: Result<Data>)
    requires s.DictOf? && Collected(env, s, m, kept, coverage)
    ensures r == ValidFields(env, s, m)
  {
    hide KeyAccepted, Valid;
    var i := 0;
    while i < |s.entries|
      invariant i <= |s.entries|
      invariant forall j :: 0 <= j < i && s.entries[j].key.Required? ==> Covered(s.entries, m, j)
    {
      if s.entries[i].key.Required? && i !in coverage {
        return SchemaError;
      }
      i := i + 1;
    }
    var new_ := kept;
    i := 0;
    while i < |s.entries|
      invariant i <= |s.entries| && new_ == Filled(s.entries, m, i, kept)
    {
      var e := s.entries[i];
      if !e.key.Required? && i !in coverage && e.value.Default? {
        new_ := new_[DefaultKey(e.key) := e.value.default];
      }
      i := i + 1;
    }
    return Ok(Dict(new_));
  }
}
