/** The critical options and extensions of a certificate: a map written as length-prefixed fields in the order
    of its keys. */
module CertTuples {
  import opened GoInt
  import opened Options
  import opened BigEndian

  // ---- The order of strings, byte by byte

  predicate Less(a: Bytes, b: Bytes) {
    b != [] && (a == [] || a[0] < b[0] || (a[0] == b[0] && Less(a[1..], b[1..])))
  }

  lemma {:induction false} Trichotomy(a: Bytes, b: Bytes)
    ensures Less(a, b) || Less(b, a) || a == b
    ensures !(Less(a, b) && Less(b, a)) && !Less(a, a)
  {
    if a != [] && b != [] {
      Trichotomy(a[1..], b[1..]);
      if a[0] == b[0] && a[1..] == b[1..] {
        assert a == [a[0]] + a[1..] && b == [b[0]] + b[1..];
      }
    }
    if a != [] { Trichotomy(a[1..], a[1..]); }
  }

  lemma {:induction false} LessTransitive(a: Bytes, b: Bytes, c: Bytes)
    requires Less(a, b) && Less(b, c)
    ensures Less(a, c)
  {
    if a != [] && a[0] == b[0] == c[0] { LessTransitive(a[1..], b[1..], c[1..]); }
  }

  ghost predicate Increasing(s: seq<Bytes>) {
    forall i, j :: 0 <= i < j < |s| ==> Less(s[i], s[j])
  }

  /** A set of strings has only one increasing sequence. */
  lemma {:induction false} IncreasingUnique(s: seq<Bytes>, t: seq<Bytes>)
    requires Increasing(s) && Increasing(t) && forall x :: x in s <==> x in t
    ensures s == t
  {
    if s == [] {
      if t != [] {
        HasFirst(t);
        assert false;
      }
    } else {
      assert s[0] in t;
      assert t != [] && t[0] in s;
      SameFirst(s, t);
      forall x ensures x in s[1..] <==> x in t[1..] {
        Later(s, x);
        Later(t, x);
      }
      IncreasingUnique(s[1..], t[1..]);
      assert s == [s[0]] + s[1..] && t == [t[0]] + t[1..];
    }
  }

  lemma HasFirst(t: seq<Bytes>)
    requires t != []
    ensures t[0] in t
  {
  }

  lemma SameFirst(s: seq<Bytes>, t: seq<Bytes>)
    requires Increasing(s) && Increasing(t) && s != [] && t != [] && s[0] in t && t[0] in s
    ensures s[0] == t[0]
  {
    var i :| 0 <= i < |t| && t[i] == s[0];
    var j :| 0 <= j < |s| && s[j] == t[0];
    if i > 0 && j > 0 { Trichotomy(s[0], t[0]); }
  }

  /** After the first, an increasing sequence holds what is larger. */
  lemma Later(s: seq<Bytes>, x: Bytes)
    requires Increasing(s) && s != []
    ensures x in s[1..] <==> x in s && x != s[0]
  {
    if x in s[1..] {
      var i :| 0 <= i < |s[1..]| && s[1..][i] == x;
      assert s[i + 1] == x && Less(s[0], s[i + 1]);
      Trichotomy(s[0], x);
    }
    assert s == [s[0]] + s[1..];
  }

  // ---- Fields

  /** A string with its length. */
  function Str(x: Bytes): (s: Bytes)
    requires |x| < TWO_32
    ensures |s| == 4 + |x|
  {
    U32(|x|) + x
  }

  /** The string at the front, and what follows it. */
  function ParseStr(s: Bytes): (r: Option<(Bytes, Bytes)>)
    ensures r.Some? ==> |r.value.0| < TWO_32 && s == Str(r.value.0) + r.value.1 && |r.value.1| < |s|
  {
    if |s| < 4 then None
    else
      var length := Get32(s);
      var rest := s[4..];
      if WrapU32(|rest|) < length then None
      else
        StrFront(s);
        Some((rest[..length], rest[length..]))
  }

  lemma StrFront(s: Bytes)
    requires |s| >= 4 && Get32(s) <= |s| - 4
    ensures var n := Get32(s); s == Str(s[4..4 + n]) + s[4 + n..] && s[4..][..n] == s[4..4 + n] && s[4..][n..] == s[4 + n..]
  {
    NumberFront(s);
  }

  /** A string is read back if the number of bytes behind the length, taken modulo 2^32, is not less than it. */
  lemma StrBack(x: Bytes, rest: Bytes)
    requires |x| < TWO_32
    ensures ParseStr(Str(x) + rest) == if WrapU32(|x| + |rest|) >= |x| then Some((x, rest)) else None
  {
    hide U32, Get32, WrapU32;
    NumbersBack32(|x|, x + rest);
    var s := Str(x) + rest;
    assert s == U32(|x|) + (x + rest);
  }

  /** A string can be followed in one way only. */
  lemma StrOnce(x: Bytes, r: Bytes, y: Bytes, q: Bytes)
    requires |x| < TWO_32 && |y| < TWO_32 && Str(x) + r == Str(y) + q
    ensures x == y && r == q
  {
    hide U32, Get32;
    NumbersBack32(|x|, x + r);
    NumbersBack32(|y|, y + q);
    assert Str(x) + r == U32(|x|) + (x + r) && Str(y) + q == U32(|y|) + (y + q);
    assert x + r == y + q;
    assert (x + r)[..|x|] == x && (y + q)[..|y|] == y && (x + r)[|x|..] == r && (y + q)[|y|..] == q;
  }

  // ---- Tuples

  /** A key and a value; the data field of the value holds it with its own length (wrapped), or is empty. */
  datatype Tuple = Tuple(key: Bytes, value: Bytes, wrapped: bool) {
    ghost predicate Fits() {
      |key| < TWO_32 && |value| + 4 < TWO_32 && (!wrapped ==> value == [])
    }

    /** As the writer writes it: only a value that is not empty is wrapped. */
    predicate Canonical() {
      wrapped <==> value != []
    }
  }

  function Encode(t: Tuple): (s: Bytes)
    requires t.Fits()
    ensures |s| > 0
  {
    Str(t.key) + Str(if t.wrapped then Str(t.value) else [])
  }

  function EncodeAll(ts: seq<Tuple>): Bytes
    requires forall t :: t in ts ==> t.Fits()
  {
    if ts == [] then [] else Encode(ts[0]) + EncodeAll(ts[1..])
  }

  function Keys(ts: seq<Tuple>): (ks: seq<Bytes>)
    ensures |ks| == |ts|
    ensures forall i :: 0 <= i < |ts| ==> ks[i] == ts[i].key
  {
    seq(|ts|, i requires 0 <= i < |ts| => ts[i].key)
  }

  ghost predicate Ordered(ts: seq<Tuple>) {
    Increasing(Keys(ts)) && forall t :: t in ts ==> t.Fits()
  }

  function MapOf(ts: seq<Tuple>): map<Bytes, Bytes> {
    if ts == [] then map[] else MapOf(ts[..|ts| - 1])[ts[|ts| - 1].key := ts[|ts| - 1].value]
  }

  datatype ParseError = ShortRead | NotInOrder | TrailingData

  datatype Step = Step(t: Tuple, rest: Bytes) | Stop(e: ParseError)

  /** The tuple at the front, after the key last. */
  function ParseOne(s: Bytes, last: Option<Bytes>): (r: Step)
    ensures r.Step? ==> r.t.Fits() && s == Encode(r.t) + r.rest && |r.rest| < |s| && (last.Some? ==> Less(last.value, r.t.key))
  {
    match ParseStr(s)
    case None => Stop(ShortRead)
    case Some((key, s1)) =>
      if last.Some? && !Less(last.value, key) then Stop(NotInOrder)
      else match ParseStr(s1)
        case None => Stop(ShortRead)
        case Some((field, rest)) =>
          if field == [] then
            OneTuple(s, key, s1, field, rest, Tuple(key, [], false));
            Step(Tuple(key, [], false), rest)
          else match ParseStr(field)
            case None => Stop(ShortRead)
            case Some((value, extra)) =>
              if extra != [] then Stop(TrailingData)
              else
                assert field == Str(value) + [] == Str(value);
                OneTuple(s, key, s1, field, rest, Tuple(key, value, true));
                Step(Tuple(key, value, true), rest)
  }

  lemma OneTuple(s: Bytes, key: Bytes, s1: Bytes, field: Bytes, rest: Bytes, t: Tuple)
    requires |key| < TWO_32 && |field| < TWO_32 && s == Str(key) + s1 && s1 == Str(field) + rest
    requires t.Fits() && t.key == key && field == if t.wrapped then Str(t.value) else []
    ensures s == Encode(t) + rest
  {
  }

  /** The data field of a tuple. */
  function Field(t: Tuple): (f: Bytes)
    requires t.Fits()
    ensures |f| < TWO_32
  {
    if t.wrapped then Str(t.value) else []
  }

  /** The lengths of the key and of the data field pass the reader's test when so many bytes follow the tuple: the
      test compares them with the number of bytes left modulo 2^32. */
  predicate LengthsPass(t: Tuple, after: nat)
    requires t.Fits()
  {
    WrapU32(|t.key| + 4 + |Field(t)| + after) >= |t.key| && WrapU32(|Field(t)| + after) >= |Field(t)|
  }

  /** What is written is read, after any smaller key, if and only if its lengths pass. */
  lemma OneBack(t: Tuple, rest: Bytes, last: Option<Bytes>)
    requires t.Fits() && (last.Some? ==> Less(last.value, t.key))
    ensures ParseOne(Encode(t) + rest, last) == if LengthsPass(t, |rest|) then Step(t, rest) else Stop(ShortRead)
  {
    hide Str, ParseStr, WrapU32;
    var field := Field(t);
    var s1 := Str(field) + rest;
    assert Encode(t) + rest == Str(t.key) + s1;
    StrSize(t.key);
    StrSize(field);
    StrBack(t.key, s1);
    StrBack(field, rest);
    if t.wrapped {
      StrSize(t.value);
      StrBack(t.value, []);
      Unwrapped(|t.value|);
      assert Str(t.value) + [] == field;
    }
  }

  lemma Unwrapped(n: nat)
    requires n < TWO_32
    ensures WrapU32(n) == n
  {
  }

  /** The first tuple can be read in one way only. */
  lemma OneOnce(t: Tuple, r: Bytes, u: Tuple, q: Bytes)
    requires t.Fits() && u.Fits() && Encode(t) + r == Encode(u) + q
    ensures t == u && r == q
  {
    hide Str;
    assert Encode(t) + r == Str(t.key) + (Str(Field(t)) + r) && Encode(u) + q == Str(u.key) + (Str(Field(u)) + q);
    StrOnce(t.key, Str(Field(t)) + r, u.key, Str(Field(u)) + q);
    StrOnce(Field(t), r, Field(u), q);
    if t.wrapped && u.wrapped {
      assert Str(t.value) + [] == Str(u.value) + [];
      StrOnce(t.value, [], u.value, []);
    }
  }

  lemma StrSize(x: Bytes)
    requires |x| < TWO_32
    ensures |Str(x)| == 4 + |x|
  {
  }

  // ---- Writing

  /** Puts k into an increasing sequence that lacks it. */
  function Insert(s: seq<Bytes>, k: Bytes): seq<Bytes> {
    if s == [] then [k] else if Less(k, s[0]) then [k] + s else [s[0]] + Insert(s[1..], k)
  }

  lemma {:induction false} InsertIncreasing(s: seq<Bytes>, k: Bytes)
    requires Increasing(s) && k !in s
    ensures Increasing(Insert(s, k)) && forall x :: x in Insert(s, k) <==> x in s || x == k
  {
    if s == [] {
    } else if Less(k, s[0]) {
      forall i | 0 <= i < |s| ensures Less(k, s[i]) {
        if i > 0 { LessTransitive(k, s[0], s[i]); }
      }
    } else {
      Trichotomy(k, s[0]);
      InsertIncreasing(s[1..], k);
      var t := Insert(s[1..], k);
      forall i | 0 <= i < |t| ensures Less(s[0], t[i]) {
        assert t[i] in t;
        if t[i] != k {
          var j :| 0 <= j < |s[1..]| && s[1..][j] == t[i];
          assert s[j + 1] == t[i];
        }
      }
      assert s == [s[0]] + s[1..];
    }
  }

  /** The keys of a map in order. */
  method SortedKeys(m: map<Bytes, Bytes>) returns (keys: seq<Bytes>)
    ensures Increasing(keys) && forall k :: k in keys <==> k in m
  {
    keys := [];
    var todo := m.Keys;
    while todo != {}
      invariant todo <= m.Keys && Increasing(keys) && forall k :: k in keys <==> k in m && k !in todo
    {
      var k :| k in todo;
      InsertIncreasing(keys, k);
      keys := Insert(keys, k);
      todo := todo - {k};
    }
  }

  /** The fields of the map fit into strings of the protocol. */
  ghost predicate MapFits(m: map<Bytes, Bytes>) {
    forall k :: k in m ==> |k| < TWO_32 && |m[k]| + 4 < TWO_32
  }

  /** The tuple that is written for a key. */
  function TupleOf(m: map<Bytes, Bytes>, key: Bytes): Tuple
    requires key in m
  {
    Tuple(key, m[key], m[key] != [])
  }

  function TuplesOf(m: map<Bytes, Bytes>, keys: seq<Bytes>): (ts: seq<Tuple>)
    requires forall k :: k in keys ==> k in m
    ensures |ts| == |keys|
  {
    seq(|keys|, i requires 0 <= i < |keys| => (assert keys[i] in keys; TupleOf(m, keys[i])))
  }

  lemma TuplesFit(m: map<Bytes, Bytes>, keys: seq<Bytes>)
    requires MapFits(m) && forall k :: k in keys ==> k in m
    ensures Keys(TuplesOf(m, keys)) == keys && forall t :: t in TuplesOf(m, keys) ==> t.Fits() && t.Canonical()
  {
    var ts := TuplesOf(m, keys);
    forall i | 0 <= i < |ts| ensures ts[i].Fits() && ts[i].Canonical() {
      assert keys[i] in keys;
    }
  }

  lemma TuplesMap(m: map<Bytes, Bytes>, keys: seq<Bytes>)
    requires MapFits(m) && Increasing(keys) && forall k :: k in keys <==> k in m
    ensures Ordered(TuplesOf(m, keys)) && MapOf(TuplesOf(m, keys)) == m
  {
    hide MapOf;
    var ts := TuplesOf(m, keys);
    TuplesFit(m, keys);
    MapMeans(ts);
    forall k | k in m ensures k in MapOf(ts) && MapOf(ts)[k] == m[k] {
      var i :| 0 <= i < |keys| && keys[i] == k;
      assert ts[i] in ts;
    }
  }

  method MarshalTuples(m: map<Bytes, Bytes>) returns (s: Bytes, ghost ts: seq<Tuple>)
    requires MapFits(m)
    ensures Ordered(ts) && s == EncodeAll(ts) && MapOf(ts) == m && forall t :: t in ts ==> t.Canonical()
  {
    hide *;
    var keys := SortedKeys(m);
    TuplesFit(m, keys);
    TuplesMap(m, keys);
    s := [];
    NothingEncoded(m, keys);
    for i := 0 to |keys|
      invariant s == EncodedUpTo(m, keys, i)
    {
      var key := keys[i];
      NextEncoded(m, keys, i);
      var field := DataField(m[key]);
      s := s + (Str(key) + Str(field));
    }
    ts := TuplesOf(m, keys);
    AllEncoded(m, keys);
  }

  /** The first i tuples on the wire. */
  ghost function EncodedUpTo(m: map<Bytes, Bytes>, keys: seq<Bytes>, i: nat): Bytes
    requires MapFits(m) && (forall k :: k in keys ==> k in m) && i <= |keys|
  {
    TuplesFit(m, keys);
    EncodeAll(TuplesOf(m, keys)[..i])
  }

  lemma NextEncoded(m: map<Bytes, Bytes>, keys: seq<Bytes>, i: nat)
    requires MapFits(m) && (forall k :: k in keys ==> k in m) && i < |keys|
    ensures keys[i] in m && |keys[i]| < TWO_32 && |m[keys[i]]| + 4 < TWO_32
    ensures EncodedUpTo(m, keys, i + 1) == EncodedUpTo(m, keys, i) + (Str(keys[i]) + Str(if m[keys[i]] != [] then Str(m[keys[i]]) else []))
  {
    hide EncodeAll, Str;
    TuplesFit(m, keys);
    var ts := TuplesOf(m, keys);
    assert keys[i] in keys && ts[i] in ts;
    assert ts[..i + 1] == ts[..i] + [ts[i]];
    EncodeAppend(ts[..i], ts[i]);
  }

  lemma AllEncoded(m: map<Bytes, Bytes>, keys: seq<Bytes>)
    requires MapFits(m) && forall k :: k in keys ==> k in m
    ensures (forall t :: t in TuplesOf(m, keys) ==> t.Fits()) && EncodedUpTo(m, keys, |keys|) == EncodeAll(TuplesOf(m, keys))
  {
    TuplesFit(m, keys);
    var ts := TuplesOf(m, keys);
    assert ts[..|keys|] == ts;
  }

  /** A value in its data field: with its own length, unless it is empty. */
  method DataField(value: Bytes) returns (field: Bytes)
    requires |value| + 4 < TWO_32
    ensures field == if value != [] then Str(value) else []
  {
    field := [];
    if |value| > 0 {
      field := Str(value);
    }
  }

  lemma NothingEncoded(m: map<Bytes, Bytes>, keys: seq<Bytes>)
    requires MapFits(m) && forall k :: k in keys ==> k in m
    ensures EncodedUpTo(m, keys, 0) == []
  {
  }

  lemma {:induction false} EncodeAppend(ts: seq<Tuple>, t: Tuple)
    requires t.Fits() && forall x :: x in ts ==> x.Fits()
    ensures EncodeAll(ts + [t]) == EncodeAll(ts) + Encode(t)
  {
    if ts == [] {
      assert EncodeAll([t][1..]) == [];
    } else {
      assert (ts + [t])[1..] == ts[1..] + [t];
      EncodeAppend(ts[1..], t);
    }
  }

  // ---- Reading

  datatype Parsed = Tuples(m: map<Bytes, Bytes>) | Error(e: ParseError)

  /** The tuples that are read from s after the key last, and the error that stops that, if there is one. */
  function ReadAll(s: Bytes, last: Option<Bytes>): (seq<Tuple>, Option<ParseError>)
    decreases |s|
  {
    if s == [] then ([], None)
    else match ParseOne(s, last)
      case Stop(e) => ([], Some(e))
      case Step(t, rest) => var (us, e) := ReadAll(rest, Some(t.key)); ([t] + us, e)
  }

  /** ts have been read from s, the last of them with the key last, and rest is left. */
  ghost predicate ReadSoFar(s: Bytes, ts: seq<Tuple>, rest: Bytes, last: Option<Bytes>) {
    && Ordered(ts) && s == EncodeAll(ts) + rest && last == LastKey(ts)
    && ReadAll(s, None) == (ts + ReadAll(rest, last).0, ReadAll(rest, last).1)
  }

  lemma ReadStart(s: Bytes)
    ensures ReadSoFar(s, [], s, None)
  {
    hide ReadAll;
    assert [] + ReadAll(s, None).0 == ReadAll(s, None).0;
  }

  lemma ReadOn(s: Bytes, ts: seq<Tuple>, rest: Bytes, last: Option<Bytes>)
    requires ReadSoFar(s, ts, rest, last) && rest != []
    ensures var one := ParseOne(rest, last);
      if one.Stop? then ReadAll(s, None) == (ts, Some(one.e))
      else |one.rest| < |rest| && ReadSoFar(s, ts + [one.t], one.rest, Some(one.t.key)) && MapOf(ts + [one.t]) == MapOf(ts)[one.t.key := one.t.value]
  {
    hide Encode, ParseOne, ReadAll;
    var one := ParseOne(rest, last);
    ReadFirst(rest, last);
    StepMeans(rest, last);
    if one.Step? {
      EncodeAppend(ts, one.t);
      OrderedAppend(ts, one.t);
      assert (ts + [one.t])[..|ts|] == ts;
      assert ts + ([one.t] + ReadAll(one.rest, Some(one.t.key)).0) == ts + [one.t] + ReadAll(one.rest, Some(one.t.key)).0;
    } else {
      assert ts + [] == ts;
    }
  }

  lemma ReadEnd(s: Bytes, ts: seq<Tuple>, last: Option<Bytes>)
    requires ReadSoFar(s, ts, [], last)
    ensures ReadAll(s, None) == (ts, None) && Ordered(ts) && s == EncodeAll(ts)
  {
    ReadNothing();
    assert ts + [] == ts && EncodeAll(ts) + [] == EncodeAll(ts);
  }

  lemma ReadSides(s: Bytes, ts: seq<Tuple>, rest: Bytes, last: Option<Bytes>)
    requires ReadSoFar(s, ts, rest, last)
    ensures Ordered(ts) && s == EncodeAll(ts) + rest && last == LastKey(ts)
  {
  }

  /** Reads the tuples one after the other; ts are those that were read. */
  method ParseTuples(s: Bytes) returns (res: Parsed, ghost ts: seq<Tuple>)
    ensures ReadAll(s, None) == (ts, if res.Error? then Some(res.e) else None)
    ensures res.Tuples? ==> Ordered(ts) && s == EncodeAll(ts) && res.m == MapOf(ts)
    ensures res.Error? ==> Ordered(ts) && exists rest :: rest != [] && s == EncodeAll(ts) + rest && ParseOne(rest, LastKey(ts)) == Stop(res.e)
  {
    hide *;
    var rest := s;
    var m: map<Bytes, Bytes> := map[];
    var lastKey: Option<Bytes> := None;
    ts := [];
    ReadStart(s);
    NoTuples();
    while |rest| > 0
      invariant ReadSoFar(s, ts, rest, lastKey) && m == MapOf(ts)
      decreases |rest|
    {
      var one := Next(rest, lastKey);
      ReadOn(s, ts, rest, lastKey);
      ReadSides(s, ts, rest, lastKey);
      if one.Stop? {
        return Error(one.e), ts;
      }
      ts := ts + [one.t];
      m := m[one.t.key := one.t.value];
      lastKey := Some(one.t.key);
      rest := one.rest;
    }
    assert rest == [];
    ReadEnd(s, ts, lastKey);
    return Tuples(m), ts;
  }

  lemma NoTuples()
    ensures MapOf([]) == map[]
  {
  }

  lemma ReadNothing()
    ensures forall last :: ReadAll([], last) == ([], None)
  {
  }

  lemma ReadFirst(s: Bytes, last: Option<Bytes>)
    requires s != []
    ensures ReadAll(s, last) == match ParseOne(s, last)
      case Stop(e) => ([], Some(e))
      case Step(t, rest) => ([t] + ReadAll(rest, Some(t.key)).0, ReadAll(rest, Some(t.key)).1)
  {
  }

  lemma StepMeans(s: Bytes, last: Option<Bytes>)
    ensures var r := ParseOne(s, last);
      r.Step? ==> r.t.Fits() && s == Encode(r.t) + r.rest && |r.rest| < |s| && (last.Some? ==> Less(last.value, r.t.key))
  {
  }

  /** One turn of the parser's loop. */
  method Next(s: Bytes, last: Option<Bytes>) returns (r: Step)
    ensures r == ParseOne(s, last)
  {
    hide Str, Encode;
    var key := ParseString(s);
    if key == None {
      return Stop(ShortRead);
    }
    if last.Some? && !Less(last.value, key.value.0) {
      return Stop(NotInOrder);
    }
    var val := ParseString(key.value.1);
    if val == None {
      return Stop(ShortRead);
    }
    if |val.value.0| > 0 {
      var inner := ParseString(val.value.0);
      if inner == None {
        return Stop(ShortRead);
      }
      if |inner.value.1| > 0 {
        return Stop(TrailingData);
      }
      return Step(Tuple(key.value.0, inner.value.0, true), val.value.1);
    }
    return Step(Tuple(key.value.0, [], false), val.value.1);
  }

  method ParseString(s: Bytes) returns (r: Option<(Bytes, Bytes)>)
    ensures r == ParseStr(s)
  {
    hide Get32, Str;
    if |s| < 4 {
      return None;
    }
    var length := Get32(s);
    var rest := s[4..];
    if WrapU32(|rest|) < length {
      return None;
    }
    return Some((rest[..length], rest[length..]));
  }

  function LastKey(ts: seq<Tuple>): Option<Bytes> {
    if ts == [] then None else Some(ts[|ts| - 1].key)
  }

  lemma OrderedAppend(ts: seq<Tuple>, t: Tuple)
    requires Ordered(ts) && t.Fits() && (ts != [] ==> Less(ts[|ts| - 1].key, t.key))
    ensures Ordered(ts + [t])
  {
    var ks := Keys(ts + [t]);
    forall i, j | 0 <= i < j < |ks| ensures Less(ks[i], ks[j]) {
      if j == |ts| {
        if i < |ts| - 1 {
          assert Less(Keys(ts)[i], Keys(ts)[|ts| - 1]);
          LessTransitive(ks[i], ts[|ts| - 1].key, t.key);
        }
      } else {
        assert Less(Keys(ts)[i], Keys(ts)[j]);
      }
    }
  }

  /** The lengths of all tuples pass. */
  predicate AllPass(ts: seq<Tuple>)
    requires forall t :: t in ts ==> t.Fits()
  {
    ts == [] || (LengthsPass(ts[0], |EncodeAll(ts[1..])|) && AllPass(ts[1..]))
  }

  /** Ordered tuples are read back if and only if all their lengths pass; otherwise the reader stops as if bytes were
      missing. */
  lemma {:induction false} ReadBackIff(ts: seq<Tuple>, last: Option<Bytes>)
    requires Ordered(ts) && (last.Some? && ts != [] ==> Less(last.value, ts[0].key))
    ensures if AllPass(ts) then ReadAll(EncodeAll(ts), last) == (ts, None) else ReadAll(EncodeAll(ts), last).1 == Some(ShortRead)
    decreases |ts|
  {
    hide Encode, ParseOne, LengthsPass, ReadAll;
    ReadNothing();
    if ts != [] {
      assert ts[0] in ts;
      EncodeSize(ts[0]);
      OneBack(ts[0], EncodeAll(ts[1..]), last);
      ReadFirst(EncodeAll(ts), last);
      TailOrdered(ts);
      if |ts| > 1 { assert Less(Keys(ts)[0], Keys(ts)[1]); }
      if LengthsPass(ts[0], |EncodeAll(ts[1..])|) {
        ReadBackIff(ts[1..], Some(ts[0].key));
        assert ts == [ts[0]] + ts[1..];
      }
    }
  }

  /** Below 4 GB all lengths pass. */
  lemma {:induction false} SmallPass(ts: seq<Tuple>)
    requires (forall t :: t in ts ==> t.Fits()) && |EncodeAll(ts)| < TWO_32
    ensures AllPass(ts)
  {
    hide AllPass;
    if ts == [] {
      PassNothing();
    } else {
      assert ts[0] in ts;
      StrSize(ts[0].key);
      StrSize(Field(ts[0]));
      PassFirst(ts);
      SmallPass(ts[1..]);
    }
  }

  lemma PassNothing()
    ensures AllPass([])
  {
  }

  lemma PassFirst(ts: seq<Tuple>)
    requires ts != [] && forall t :: t in ts ==> t.Fits()
    ensures AllPass(ts) <==> LengthsPass(ts[0], |EncodeAll(ts[1..])|) && AllPass(ts[1..])
  {
  }

  /** A key and a value of 2 GB each do not. */
  lemma HalvesRefused(t: Tuple)
    requires |t.key| == 0x8000_0000 && |t.value| == 0x8000_0000 && t.wrapped
    ensures Ordered([t]) && !AllPass([t]) && ReadAll(EncodeAll([t]), None).1 == Some(ShortRead)
  {
    hide Str, ReadAll;
    StrSize(t.value);
    assert [t][1..] == [] && EncodeAll([]) == [];
    assert !LengthsPass(t, 0);
    ReadBackIff([t], None);
  }

  /** Two sequences of tuples with the same bytes agree. */
  lemma {:induction false} SameTuples(ts: seq<Tuple>, us: seq<Tuple>)
    requires (forall t :: t in ts ==> t.Fits()) && (forall u :: u in us ==> u.Fits()) && EncodeAll(ts) == EncodeAll(us)
    ensures ts == us
    decreases |ts|
  {
    hide Encode;
    if ts != [] { assert ts[0] in ts; EncodeSize(ts[0]); }
    if us != [] { assert us[0] in us; EncodeSize(us[0]); }
    if ts != [] {
      OneOnce(ts[0], EncodeAll(ts[1..]), us[0], EncodeAll(us[1..]));
      SameTuples(ts[1..], us[1..]);
      assert us == [us[0]] + us[1..] && ts == [ts[0]] + ts[1..];
    }
  }

  lemma EncodeSize(t: Tuple)
    requires t.Fits()
    ensures |Encode(t)| > 0
  {
  }

  lemma TailOrdered(ts: seq<Tuple>)
    requires Ordered(ts) && ts != []
    ensures Ordered(ts[1..])
  {
    forall i, j | 0 <= i < j < |ts| - 1 ensures Less(Keys(ts[1..])[i], Keys(ts[1..])[j]) {
      assert Less(Keys(ts)[i + 1], Keys(ts)[j + 1]);
    }
  }

  // ---- Round trips

  /** Reading what was written gives the map back if and only if the lengths of all its tuples ts pass, which they do
      below 4 GB. */
  method MarshalParse(m: map<Bytes, Bytes>) returns (s: Bytes, res: Parsed, ghost ts: seq<Tuple>)
    requires MapFits(m)
    ensures Ordered(ts) && s == EncodeAll(ts) && MapOf(ts) == m && forall t :: t in ts ==> t.Canonical()
    ensures res == if AllPass(ts) then Tuples(m) else Error(ShortRead)
    ensures |s| < TWO_32 ==> AllPass(ts)
  {
    hide ReadAll, AllPass, Encode;
    ghost var us;
    s, ts := MarshalTuples(m);
    res, us := ParseTuples(s);
    ReadBackIff(ts, None);
    if |s| < TWO_32 { SmallPass(ts); }
  }

  lemma {:induction false} MapMeans(ts: seq<Tuple>)
    requires Ordered(ts)
    ensures forall k :: k in MapOf(ts) <==> k in Keys(ts)
    ensures forall t :: t in ts ==> t.key in MapOf(ts) && MapOf(ts)[t.key] == t.value
  {
    if ts != [] {
      var us, t := ts[..|ts| - 1], ts[|ts| - 1];
      assert Keys(us) == Keys(ts)[..|us|];
      MapMeans(us);
      assert ts == us + [t];
      assert Keys(ts) == Keys(us) + [t.key];
      forall x | x in us ensures x.key != t.key {
        var i :| 0 <= i < |us| && us[i] == x;
        assert Less(Keys(ts)[i], Keys(ts)[|us|]);
        Trichotomy(x.key, t.key);
      }
    }
  }

  /** Writing what was read gives the same bytes if and only if no data field wraps an empty value. */
  lemma RemarshalSame(ts: seq<Tuple>, us: seq<Tuple>)
    requires Ordered(ts) && Ordered(us) && MapOf(ts) == MapOf(us)
    requires forall u :: u in us ==> u.Canonical()
    ensures EncodeAll(us) == EncodeAll(ts) <==> forall t :: t in ts ==> t.Canonical()
  {
    hide Encode;
    MapMeans(ts);
    MapMeans(us);
    IncreasingUnique(Keys(ts), Keys(us));
    forall i | 0 <= i < |ts| ensures ts[i].key == us[i].key && ts[i].value == us[i].value {
      assert ts[i] in ts && us[i] in us && Keys(ts)[i] == Keys(us)[i];
    }
    if EncodeAll(us) == EncodeAll(ts) {
      SameTuples(ts, us);
    }
    if forall t :: t in ts ==> t.Canonical() {
      forall i | 0 <= i < |ts| ensures ts[i] == us[i] {
        assert ts[i] in ts && us[i] in us;
      }
      assert ts == us;
    }
  }
}
