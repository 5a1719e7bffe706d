/** What several components share. */
module Common {

  datatype Option<T> = None | Some(value: T)

  /** A reading of the monotonic clock, in seconds since boot. */
  type Time = t: int | 0 < t witness 1

  /** The idle timestamp after `_check_idle`: 0 while in use, else the start of the idle period. */
  function IdleTs(inUse: bool, idleTs: int, now: Time): int {
    if inUse then 0 else if idleTs == 0 then now else idleTs
  }

  /** Python's `s.split(sep)` for a one-character separator. */
  function Split(s: string, sep: char): (parts: seq<string>)
    ensures |parts| > 0
  {
    if s == "" then [""]
    else
      var rest := Split(s[1..], sep);
      if s[0] == sep then [""] + rest else [[s[0]] + rest[0]] + rest[1..]
  }

  /** Python's `sep.join(parts)`. */
  function Join(parts: seq<string>, sep: char): string {
    if parts == [] then ""
    else if |parts| == 1 then parts[0]
    else parts[0] + [sep] + Join(parts[1..], sep)
  }

  lemma {:induction false} SplitFirst(a: string, rest: string, sep: char)
    requires sep !in a
    ensures Split(a + [sep] + rest, sep) == [a] + Split(rest, sep)
  {
    if a == "" {
      assert (a + [sep] + rest)[1..] == rest;
    } else {
      SplitFirst(a[1..], rest, sep);
      assert (a + [sep] + rest)[1..] == a[1..] + [sep] + rest;
      assert [a[0]] + a[1..] == a;
    }
  }

  lemma {:induction false} SplitOne(a: string, sep: char)
    requires sep !in a
    ensures Split(a, sep) == [a]
  {
    if a != "" {
      SplitOne(a[1..], sep);
      assert [a[0]] + a[1..] == a;
    }
  }

  lemma {:induction false} SplitParts(s: string, sep: char)
    ensures forall i :: 0 <= i < |Split(s, sep)| ==> sep !in Split(s, sep)[i]
  {
    if s != "" {
      SplitParts(s[1..], sep);
    }
  }

  /** Splitting what was joined gives the parts back, exactly if there are some and none contains the separator. */
  lemma {:induction false} SplitJoin(parts: seq<string>, sep: char)
    ensures Split(Join(parts, sep), sep) == parts <==> parts != [] && forall i :: 0 <= i < |parts| ==> sep !in parts[i]
  {
    SplitParts(Join(parts, sep), sep);
    if parts != [] && forall i :: 0 <= i < |parts| ==> sep !in parts[i] {
      JoinSplit(parts, sep);
    }
  }

  lemma {:induction false} JoinSplit(parts: seq<string>, sep: char)
    requires parts != [] && forall i :: 0 <= i < |parts| ==> sep !in parts[i]
    ensures Split(Join(parts, sep), sep) == parts
  {
    if |parts| == 1 {
      SplitOne(parts[0], sep);
    } else {
      JoinSplit(parts[1..], sep);
      SplitFirst(parts[0], Join(parts[1..], sep), sep);
    }
  }
}
