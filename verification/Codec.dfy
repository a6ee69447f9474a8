/** The binary task format: a printer and parser over length-prefixed fields with
    three optional trailing fields. */
module Codec {
  import opened Bytes

  /** A task. `result` is never serialized; Go's int is 64 bits wide (see `Fits`). */
  datatype Task = Task(
    id: Bytes, queue: Bytes, name: Bytes, payload: Bytes,
    retry: int, maxRetry: int, timeoutMs: int,
    uniqueKey: Bytes, uniqueTtlMs: int,
    lastError: Bytes, cronSpec: Bytes, createdAtNs: int,
    uniqueScope: int, groupKey: Bytes, deadlineMs: int,
    result: Bytes)

  /** When the unique lock goes: with success or dead-lettering, at the start, or also on failure. */
  const UNTIL_SUCCEEDED := 0
  const UNTIL_START := 1
  const UNTIL_SUCCESS := 2

  const EMPTY_TASK := Task([], [], [], [], 0, 0, 0, [], 0, [], [], 0, 0, [], 0, [])

  // ---- one field ----------------------------------------------------------

  datatype Kind = KStr16 | KStr32 | KInt32 | KInt64
  datatype Field = Str16(s: Bytes) | Str32(s: Bytes) | Word32(n: int) | Word64(n: int)

  function KindOf(f: Field): Kind {
    match f case Str16(_) => KStr16 case Str32(_) => KStr32 case Word32(_) => KInt32 case Word64(_) => KInt64
  }

  /** A value the header or word can represent; everything else is silently truncated. */
  predicate FieldFits(f: Field) {
    match f
    case Str16(s) => |s| < 0x1_0000
    case Str32(s) => |s| < 0x1_0000_0000
    case Word32(n) => IsInt32(n)
    case Word64(n) => IsInt64(n)
  }

  /** The width of the length header or of the word itself. */
  function Width(k: Kind): nat {
    match k case KStr16 => 2 case KStr32 => 4 case KInt32 => 4 case KInt64 => 8
  }

  /** The length header or the word, before it is cut to its width. */
  function Head(f: Field): int {
    match f case Str16(s) => |s| case Str32(s) => |s| case Word32(n) => n case Word64(n) => n
  }

  function Body(f: Field): Bytes { if f.Str16? || f.Str32? then f.s else [] }

  function EncodeField(f: Field): Bytes { Put(Head(f), Width(KindOf(f))) + Body(f) }

  /** The field a header or word value and the octets after it stand for. */
  function Make(k: Kind, n: int, body: Bytes): Field {
    match k
    case KStr16 => Str16(body)
    case KStr32 => Str32(body)
    case KInt32 => Word32(Signed(n, 4))
    case KInt64 => Word64(Signed(n, 8))
  }

  function BodyLength(k: Kind, n: int): int { if k == KStr16 || k == KStr32 then n else 0 }

  function DecodeField(k: Kind, d: Bytes): Option<(Field, Bytes)> {
    var w := Width(k);
    if |d| < w then None
    else
      var n := Get(d[..w]);
      var len := BodyLength(k, n);
      if len > |d| - w then None
      else Some((Make(k, n, d[w..w + len]), d[w + len..]))
  }

  lemma MakeInverts(f: Field)
    requires FieldFits(f)
    ensures var n := Get(Put(Head(f), Width(KindOf(f))));
            Make(KindOf(f), n, Body(f)) == f && BodyLength(KindOf(f), n) == |Body(f)|
  {
    SpanValues();
    match f
    case Str16(s) => GetPutInRange(|s|, 2);
    case Str32(s) => GetPutInRange(|s|, 4);
    case Word32(n) => GetPutInRange(n, 4);
    case Word64(n) => GetPutInRange(n, 8);
  }

  lemma MakeOnto(k: Kind, b: Bytes, body: Bytes)
    requires |b| == Width(k) && |body| == BodyLength(k, Get(b))
    ensures var f := Make(k, Get(b), body);
            KindOf(f) == k && FieldFits(f) && Put(Head(f), Width(k)) == b && Body(f) == body
  {
    SpanValues();
    GetInSpan(b);
    PutGet(b);
    PutWraps(Get(b), Width(k));
  }

  lemma FieldRoundTrip(f: Field, rest: Bytes)
    requires FieldFits(f)
    ensures DecodeField(KindOf(f), EncodeField(f) + rest) == Some((f, rest))
  {
    var e, w := EncodeField(f) + rest, Width(KindOf(f));
    MakeInverts(f);
    assert e[..w] == Put(Head(f), w);
    assert e[w..w + |Body(f)|] == Body(f) && e[w + |Body(f)|..] == rest;
  }

  /** Whatever a field parser accepts is exactly what the printer would have written. */
  lemma FieldCanonical(k: Kind, d: Bytes)
    requires DecodeField(k, d).Some?
    ensures var (f, rest) := DecodeField(k, d).value;
            KindOf(f) == k && FieldFits(f) && EncodeField(f) + rest == d
  {
    var w := Width(k);
    var body := d[w..w + BodyLength(k, Get(d[..w]))];
    MakeOnto(k, d[..w], body);
    assert d == d[..w] + body + d[w + |body|..];
  }

  // ---- a list of fields ---------------------------------------------------

  function KindsOf(fs: seq<Field>): seq<Kind> {
    seq(|fs|, i requires 0 <= i < |fs| => KindOf(fs[i]))
  }

  predicate AllFit(fs: seq<Field>) { forall i :: 0 <= i < |fs| ==> FieldFits(fs[i]) }

  function EncodeFields(fs: seq<Field>): Bytes {
    if fs == [] then [] else EncodeField(fs[0]) + EncodeFields(fs[1..])
  }

  type Parsed = Option<(seq<Field>, Bytes)>

  function Prepend(fs: seq<Field>, p: Parsed): Parsed {
    if p.None? then None else Some((fs + p.value.0, p.value.1))
  }

  function DecodeFields(ks: seq<Kind>, d: Bytes): (r: Parsed)
    ensures r.Some? ==> KindsOf(r.value.0) == ks
  {
    if ks == [] then Some(([], d))
    else
      var p := DecodeField(ks[0], d);
      if p.None? then None
      else
        var r := Prepend([p.value.0], DecodeFields(ks[1..], p.value.1));
        assert r.Some? ==> KindsOf(r.value.0) == [ks[0]] + ks[1..] == ks;
        r
  }

  lemma DecodeStep(k: Kind, ks: seq<Kind>, d: Bytes)
    requires DecodeField(k, d).Some?
    ensures var p := DecodeField(k, d).value;
            DecodeFields([k] + ks, d) == Prepend([p.0], DecodeFields(ks, p.1))
  {
    assert ([k] + ks)[1..] == ks;
  }

  lemma {:induction false} FieldsRoundTrip(fs: seq<Field>, rest: Bytes)
    requires AllFit(fs)
    ensures DecodeFields(KindsOf(fs), EncodeFields(fs) + rest) == Some((fs, rest))
  {
    if fs == [] {
      assert EncodeFields(fs) + rest == rest && KindsOf(fs) == [];
    } else {
      assert FieldFits(fs[0]);
      var tail := EncodeFields(fs[1..]) + rest;
      FieldsRoundTrip(fs[1..], rest);
      RoundTripStep(fs[0], tail, KindsOf(fs[1..]));
      CanonicalStep(fs[0], fs[1..], rest);
      FieldsCons(fs);
    }
  }

  lemma FieldsCons(fs: seq<Field>)
    requires fs != []
    ensures KindsOf(fs) == [KindOf(fs[0])] + KindsOf(fs[1..]) && fs == [fs[0]] + fs[1..]
  {
  }

  lemma RoundTripStep(f: Field, tail: Bytes, ks: seq<Kind>)
    requires FieldFits(f)
    ensures DecodeFields([KindOf(f)] + ks, EncodeField(f) + tail) == Prepend([f], DecodeFields(ks, tail))
  {
    FieldRoundTrip(f, tail);
    DecodeStep(KindOf(f), ks, EncodeField(f) + tail);
  }

  lemma {:induction false} FieldsCanonical(ks: seq<Kind>, d: Bytes)
    requires DecodeFields(ks, d).Some?
    ensures var (fs, rest) := DecodeFields(ks, d).value;
            KindsOf(fs) == ks && AllFit(fs) && EncodeFields(fs) + rest == d
  {
    if ks == [] {
      assert EncodeFields([]) + d == d;
    } else {
      FieldCanonical(ks[0], d);
      var (f, d1) := DecodeField(ks[0], d).value;
      FieldsCanonical(ks[1..], d1);
      var (fs, d2) := DecodeFields(ks[1..], d1).value;
      CanonicalStep(f, fs, d2);
    }
  }

  lemma CanonicalStep(f: Field, fs: seq<Field>, rest: Bytes)
    requires FieldFits(f) && AllFit(fs)
    ensures AllFit([f] + fs)
    ensures EncodeFields([f] + fs) + rest == EncodeField(f) + (EncodeFields(fs) + rest)
  {
    assert ([f] + fs)[1..] == fs;
  }

  /** No strict prefix of an encoding parses: every field is needed to its last octet. */
  lemma FieldsTruncated(fs: seq<Field>, n: nat)
    requires AllFit(fs) && n < |EncodeFields(fs)|
    ensures DecodeFields(KindsOf(fs), EncodeFields(fs)[..n]).None?
  {
    var d := EncodeFields(fs);
    if DecodeFields(KindsOf(fs), d[..n]).Some? {
      FieldsCanonical(KindsOf(fs), d[..n]);
      var (gs, rest) := DecodeFields(KindsOf(fs), d[..n]).value;
      assert EncodeFields(gs) + (rest + d[n..]) == d[..n] + d[n..] == d + [];
      FieldsRoundTrip(gs, rest + d[n..]);
      FieldsRoundTrip(fs, []);
    }
  }

  lemma {:induction false} EncodeConcat(fs: seq<Field>, gs: seq<Field>)
    ensures EncodeFields(fs + gs) == EncodeFields(fs) + EncodeFields(gs)
  {
    if fs == [] {
      assert fs + gs == gs;
    } else {
      assert (fs + gs)[1..] == fs[1..] + gs;
      EncodeConcat(fs[1..], gs);
    }
  }

  // ---- the task layout ----------------------------------------------------

  function CoreFields(t: Task): seq<Field> {
    [ Str16(t.id), Str16(t.queue), Str16(t.name), Str32(t.payload),
      Word32(t.retry), Word32(t.maxRetry), Word64(t.timeoutMs),
      Str16(t.uniqueKey), Word64(t.uniqueTtlMs),
      Str32(t.lastError), Str16(t.cronSpec), Word64(t.createdAtNs) ]
  }

  function TrailingFields(t: Task): seq<Field> {
    [ Word32(t.uniqueScope), Str16(t.groupKey), Word64(t.deadlineMs) ]
  }

  const CORE_KINDS: seq<Kind> :=
    [ KStr16, KStr16, KStr16, KStr32, KInt32, KInt32, KInt64, KStr16, KInt64, KStr32, KStr16, KInt64 ]

  function FromCore(fs: seq<Field>, t: Task): Task
    requires KindsOf(fs) == CORE_KINDS
  {
    assert |fs| == 12 && forall i :: 0 <= i < 12 ==> KindOf(fs[i]) == CORE_KINDS[i];
    t.(id := fs[0].s, queue := fs[1].s, name := fs[2].s, payload := fs[3].s,
       retry := fs[4].n, maxRetry := fs[5].n, timeoutMs := fs[6].n,
       uniqueKey := fs[7].s, uniqueTtlMs := fs[8].n,
       lastError := fs[9].s, cronSpec := fs[10].s, createdAtNs := fs[11].n)
  }

  const TRAILING_KINDS: seq<Kind> := [ KInt32, KStr16, KInt64 ]

  function FromTrailing(gs: seq<Field>, t: Task): Task
    requires KindsOf(gs) == TRAILING_KINDS
  {
    assert |gs| == |KindsOf(gs)| == 3;
    assert KindsOf(gs)[0] == KInt32 && KindsOf(gs)[1] == KStr16 && KindsOf(gs)[2] == KInt64;
    t.(uniqueScope := gs[0].n, groupKey := gs[1].s, deadlineMs := gs[2].n)
  }

  function Encode(t: Task): Bytes { EncodeFields(CoreFields(t) + TrailingFields(t)) }

  /** Every field is within its width: exactly the tasks the format can carry. */
  predicate Fits(t: Task) {
    && |t.id| < 0x1_0000 && |t.queue| < 0x1_0000 && |t.name| < 0x1_0000
    && |t.uniqueKey| < 0x1_0000 && |t.cronSpec| < 0x1_0000 && |t.groupKey| < 0x1_0000
    && |t.payload| < 0x1_0000_0000 && |t.lastError| < 0x1_0000_0000
    && IsInt32(t.retry) && IsInt32(t.maxRetry) && IsInt32(t.uniqueScope)
    && IsInt64(t.timeoutMs) && IsInt64(t.uniqueTtlMs) && IsInt64(t.createdAtNs) && IsInt64(t.deadlineMs)
  }

  /** The three trailing fields, each read only when enough octets are left. */
  function DecodeTrailing(d: Bytes, t: Task): Option<Task> {
    var scope := DecodeField(KInt32, d);
    var t1 := if scope.Some? then t.(uniqueScope := scope.value.0.n) else t;
    var d1 := if scope.Some? then scope.value.1 else d;
    if |d1| < 2 then Some(t1)
    else
      var group := DecodeField(KStr16, d1);
      if group.None? then None
      else
        var t2 := t1.(groupKey := group.value.0.s);
        var deadline := DecodeField(KInt64, group.value.1);
        Some(if deadline.Some? then t2.(deadlineMs := deadline.value.0.n) else t2)
  }

  /** Unmarshal into an existing task value; fields the data lacks keep their value. */
  function DecodeInto(d: Bytes, t: Task): Option<Task> {
    var core := DecodeFields(CORE_KINDS, d);
    if core.None? then None else DecodeTrailing(core.value.1, FromCore(core.value.0, t))
  }

  function Decode(d: Bytes): Option<Task> { DecodeInto(d, EMPTY_TASK) }

  /** The data carries the core and all three trailing fields completely. */
  predicate HasAllFields(d: Bytes) {
    var core := DecodeFields(CORE_KINDS, d);
    core.Some? && |core.value.1| >= 6 && |core.value.1| >= 14 + Get(core.value.1[4..6])
  }

  lemma PutStep(n: int, w: nat)
    requires w > 0
    ensures Put(n, w) == Put(n / 256, w - 1) + [n % 256]
  {
  }

  lemma WordLayout(n: int)
    ensures Put(n, 2) == [n / 256 % 256, n % 256]
    ensures Put(n, 4) == [n / 256 / 256 / 256 % 256, n / 256 / 256 % 256, n / 256 % 256, n % 256]
  {
    var a, b, c := n / 256, n / 256 / 256, n / 256 / 256 / 256;
    assert Put(a, 1) == [a % 256] && Put(c, 1) == [c % 256];
    PutStep(n, 2);
    PutStep(n, 4);
    PutStep(a, 3);
    PutStep(b, 2);
  }

  /** Eight octets are the high four and the low four. */
  lemma LongWordLayout(n: int)
    ensures Put(n, 8) == Put(n / 256 / 256 / 256 / 256, 4) + Put(n, 4)
  {
    var a, b, c, d := n / 256, n / 256 / 256, n / 256 / 256 / 256, n / 256 / 256 / 256 / 256;
    PutStep(n, 8);
    PutStep(a, 7);
    PutStep(b, 6);
    PutStep(c, 5);
    WordLayout(n);
  }

  /** The octets of each field in turn: lengths and numbers big-endian, numbers in two's complement,
      strings behind their length. */
  function CoreParts(t: Task): seq<Bytes> {
    [ Put(|t.id|, 2) + t.id, Put(|t.queue|, 2) + t.queue, Put(|t.name|, 2) + t.name,
      Put(|t.payload|, 4) + t.payload,
      Put(t.retry, 4), Put(t.maxRetry, 4), Put(t.timeoutMs, 8),
      Put(|t.uniqueKey|, 2) + t.uniqueKey, Put(t.uniqueTtlMs, 8),
      Put(|t.lastError|, 4) + t.lastError, Put(|t.cronSpec|, 2) + t.cronSpec, Put(t.createdAtNs, 8) ]
  }

  function TrailingParts(t: Task): seq<Bytes> {
    [ Put(t.uniqueScope, 4), Put(|t.groupKey|, 2) + t.groupKey, Put(t.deadlineMs, 8) ]
  }

  function Joined(parts: seq<Bytes>): Bytes { if parts == [] then [] else parts[0] + Joined(parts[1..]) }

  lemma {:induction false} EncodeIsJoined(fs: seq<Field>, parts: seq<Bytes>)
    requires |fs| == |parts| && forall i :: 0 <= i < |fs| ==> EncodeField(fs[i]) == parts[i]
    ensures EncodeFields(fs) == Joined(parts)
  {
    if fs != [] { EncodeIsJoined(fs[1..], parts[1..]); }
  }

  lemma FieldOctets(f: Field)
    ensures match f
            case Str16(s) => EncodeField(f) == Put(|s|, 2) + s
            case Str32(s) => EncodeField(f) == Put(|s|, 4) + s
            case Word32(n) => EncodeField(f) == Put(n, 4)
            case Word64(n) => EncodeField(f) == Put(n, 8)
  {
  }

  lemma CoreOctets(t: Task)
    ensures EncodeFields(CoreFields(t)) == Joined(CoreParts(t))
  {
    var fs, parts := CoreFields(t), CoreParts(t);
    assert |fs| == |parts| == 12;
    forall i | 0 <= i < 12 ensures EncodeField(fs[i]) == parts[i] { FieldOctets(fs[i]); }
    EncodeIsJoined(fs, parts);
  }

  lemma TrailingOctets(t: Task)
    ensures EncodeFields(TrailingFields(t)) == Joined(TrailingParts(t))
  {
    var fs, parts := TrailingFields(t), TrailingParts(t);
    assert |fs| == |parts| == 3;
    forall i | 0 <= i < 3 ensures EncodeField(fs[i]) == parts[i] { FieldOctets(fs[i]); }
    EncodeIsJoined(fs, parts);
  }

  /** The layout on the wire. */
  lemma WireLayout(t: Task)
    ensures Encode(t) == Joined(CoreParts(t)) + Joined(TrailingParts(t))
  {
    EncodeConcat(CoreFields(t), TrailingFields(t));
    CoreOctets(t);
    TrailingOctets(t);
  }

  lemma KindsOfCore(t: Task)
    ensures KindsOf(CoreFields(t)) == CORE_KINDS
  {
    var fs := CoreFields(t);
    var ks := KindsOf(fs);
    assert |ks| == 12 && |CORE_KINDS| == 12;
    forall i | 0 <= i < 12 ensures ks[i] == CORE_KINDS[i] {
      assert ks[i] == KindOf(fs[i]);
    }
  }

  lemma CoreDecodes(t: Task, rest: Bytes)
    requires AllFit(CoreFields(t))
    ensures DecodeFields(CORE_KINDS, EncodeFields(CoreFields(t)) + rest) == Some((CoreFields(t), rest))
  {
    KindsOfCore(t);
    FieldsRoundTrip(CoreFields(t), rest);
  }

  /** With all three trailing fields in place, the trailing parser is the plain field parser. */
  lemma TrailingIsFieldParse(d: Bytes, t: Task)
    requires DecodeFields(TRAILING_KINDS, d).Some?
    ensures var fs := DecodeFields(TRAILING_KINDS, d).value.0;
            KindsOf(fs) == TRAILING_KINDS && DecodeTrailing(d, t) == Some(FromTrailing(fs, t))
  {
    FieldsCanonical(TRAILING_KINDS, d);
    assert TRAILING_KINDS[1..] == [KStr16, KInt64] && [KStr16, KInt64][1..] == [KInt64] && [KInt64][1..] == [];
    var (f0, d1) := DecodeField(KInt32, d).value;
    assert DecodeFields([KStr16, KInt64], d1).Some?;
    var (f1, d2) := DecodeField(KStr16, d1).value;
    assert DecodeFields([KInt64], d2).Some?;
    var (f2, d3) := DecodeField(KInt64, d2).value;
  }

  /** Enough octets for the scope, the group-key header, the group key it announces and the deadline. */
  lemma TrailingParses(d: Bytes)
    requires |d| >= 6 && |d| >= 14 + Get(d[4..6])
    ensures DecodeFields(TRAILING_KINDS, d).Some?
  {
    var (f0, d1) := DecodeField(KInt32, d).value;
    assert d1[..2] == d[4..6];
    var (f1, d2) := DecodeField(KStr16, d1).value;
    DecodeStep(KInt64, [], d2);
    DecodeStep(KStr16, [KInt64], d1);
    DecodeStep(KInt32, [KStr16, KInt64], d);
    assert [KInt64] + [] == [KInt64] && [KStr16] + [KInt64] == [KStr16, KInt64]
        && [KInt32] + [KStr16, KInt64] == TRAILING_KINDS;
  }

  lemma EncodeSplits(t: Task)
    ensures Encode(t) == EncodeFields(CoreFields(t)) + EncodeFields(TrailingFields(t))
  {
    EncodeConcat(CoreFields(t), TrailingFields(t));
  }

  lemma TrailingDecodes(t: Task, rest: Bytes, u: Task)
    requires AllFit(TrailingFields(t))
    ensures DecodeTrailing(EncodeFields(TrailingFields(t)) + rest, u)
         == Some(u.(uniqueScope := t.uniqueScope, groupKey := t.groupKey, deadlineMs := t.deadlineMs))
  {
    var fs := TrailingFields(t);
    assert KindsOf(fs) == TRAILING_KINDS;
    FieldsRoundTrip(fs, rest);
    TrailingIsFieldParse(EncodeFields(fs) + rest, u);
  }

  // ---- main results -------------------------------------------------------

  lemma FitsIsAllFit(t: Task)
    ensures Fits(t) <==> AllFit(CoreFields(t)) && AllFit(TrailingFields(t))
  {
    var c, r := CoreFields(t), TrailingFields(t);
    if AllFit(c) && AllFit(r) {
      assert FieldFits(c[0]) && FieldFits(c[1]) && FieldFits(c[2]) && FieldFits(c[3]) && FieldFits(c[4])
          && FieldFits(c[5]);
      assert FieldFits(c[7]) && FieldFits(c[8]) && FieldFits(c[9]) && FieldFits(c[10]) && FieldFits(c[11]);
      assert FieldFits(c[6]) && FieldFits(r[0]) && FieldFits(r[1]) && FieldFits(r[2]);
    }
  }

  predicate TrailingFit(t: Task) { IsInt32(t.uniqueScope) && |t.groupKey| < 0x1_0000 && IsInt64(t.deadlineMs) }

  lemma TrailingFits(d: Bytes, t: Task)
    requires Fits(t) && DecodeTrailing(d, t).Some?
    ensures Fits(DecodeTrailing(d, t).value)
  {
    if DecodeField(KInt32, d).Some? { FieldCanonical(KInt32, d); }
    var d1 := if DecodeField(KInt32, d).Some? then DecodeField(KInt32, d).value.1 else d;
    if |d1| >= 2 {
      FieldCanonical(KStr16, d1);
      var d2 := DecodeField(KStr16, d1).value.1;
      if DecodeField(KInt64, d2).Some? { FieldCanonical(KInt64, d2); }
    }
  }

  lemma CoreFits(fs: seq<Field>, t: Task)
    requires KindsOf(fs) == CORE_KINDS && AllFit(fs) && TrailingFit(t)
    ensures Fits(FromCore(fs, t)) && CoreFields(FromCore(fs, t)) == fs
  {
    assert forall i :: 0 <= i < 12 ==> KindOf(fs[i]) == CORE_KINDS[i] && FieldFits(fs[i]);
  }

  /** Any task that comes out of the parser is within the field widths. */
  lemma DecodedFits(d: Bytes, t: Task)
    requires DecodeInto(d, t).Some? && TrailingFit(t)
    ensures Fits(DecodeInto(d, t).value)
  {
    FieldsCanonical(CORE_KINDS, d);
    var (fs, rest) := DecodeFields(CORE_KINDS, d).value;
    CoreFits(fs, t);
    TrailingFits(rest, FromCore(fs, t));
  }

  lemma RoundTrip(t: Task, rest: Bytes)
    requires Fits(t)
    ensures Decode(Encode(t) + rest) == Some(t.(result := []))
  {
    FitsIsAllFit(t);
    EncodeSplits(t);
    var tail := EncodeFields(TrailingFields(t)) + rest;
    assert Encode(t) + rest == EncodeFields(CoreFields(t)) + tail;
    CoreDecodes(t, tail);
    TrailingDecodes(t, rest, FromCore(CoreFields(t), EMPTY_TASK));
  }

  /** Decoding an encoding gives the task back, minus Result, if and only if the task
      is within the field widths; trailing garbage is ignored. */
  lemma RoundTripExactlyWhenFits(t: Task, rest: Bytes)
    ensures Decode(Encode(t) + rest) == Some(t.(result := [])) <==> Fits(t)
  {
    if Fits(t) { RoundTrip(t, rest); }
    if Decode(Encode(t) + rest) == Some(t.(result := [])) {
      DecodedFits(Encode(t) + rest, EMPTY_TASK);
    }
  }

  /** Print after parse: data that carries every field is the printed form of the task it
      decodes to, followed by the octets the parser never looked at. */
  lemma DecodeIsCanonical(d: Bytes)
    requires HasAllFields(d)
    ensures Decode(d).Some?
    ensures var e := Encode(Decode(d).value); |e| <= |d| && d[..|e|] == e
  {
    var (fs, rest) := DecodeFields(CORE_KINDS, d).value;
    var core := FromCore(fs, EMPTY_TASK);
    TrailingParses(rest);
    TrailingIsFieldParse(rest, core);
    var (gs, rest') := DecodeFields(TRAILING_KINDS, rest).value;
    FieldsOfDecoded(fs, gs);
    EncodeSplits(FromTrailing(gs, core));
    FieldsReprint(CORE_KINDS, d, TRAILING_KINDS);
    assert d == Encode(FromTrailing(gs, core)) + rest';
  }

  lemma FieldsReprint(ks: seq<Kind>, d: Bytes, ls: seq<Kind>)
    requires DecodeFields(ks, d).Some? && DecodeFields(ls, DecodeFields(ks, d).value.1).Some?
    ensures var (fs, rest) := DecodeFields(ks, d).value;
            var (gs, rest') := DecodeFields(ls, rest).value;
            d == (EncodeFields(fs) + EncodeFields(gs)) + rest'
  {
    FieldsCanonical(ks, d);
    var (fs, rest) := DecodeFields(ks, d).value;
    FieldsCanonical(ls, rest);
    var (gs, rest') := DecodeFields(ls, rest).value;
    assert EncodeFields(fs) + (EncodeFields(gs) + rest') == (EncodeFields(fs) + EncodeFields(gs)) + rest';
  }

  lemma FieldsOfDecoded(fs: seq<Field>, gs: seq<Field>)
    requires KindsOf(fs) == CORE_KINDS && KindsOf(gs) == TRAILING_KINDS
    ensures var t := FromTrailing(gs, FromCore(fs, EMPTY_TASK)); CoreFields(t) == fs && TrailingFields(t) == gs
  {
    assert |fs| == |KindsOf(fs)| == 12 && |gs| == |KindsOf(gs)| == 3;
    assert forall i :: 0 <= i < 12 ==> KindOf(fs[i]) == KindsOf(fs)[i];
    assert forall i :: 0 <= i < 3 ==> KindOf(gs[i]) == KindsOf(gs)[i];
  }

  /** The encoding is injective on tasks within the widths, even when followed by other octets. */
  lemma EncodeInjective(t: Task, r: Bytes, u: Task, s: Bytes)
    requires Fits(t) && Fits(u) && Encode(t) + r == Encode(u) + s
    ensures t.(result := []) == u.(result := []) && r == s
  {
    RoundTripExactlyWhenFits(t, r);
    RoundTripExactlyWhenFits(u, s);
    assert Encode(t) == Encode(t.(result := [])) == Encode(u);
    assert r == (Encode(t) + r)[|Encode(t)|..] == (Encode(u) + s)[|Encode(u)|..] == s;
  }

  /** A payload cut before the end of CreatedAt is rejected. */
  lemma TruncatedCoreRejected(t: Task, n: nat, u: Task)
    requires Fits(t) && n < |EncodeFields(CoreFields(t))|
    ensures n < |Encode(t)| && DecodeInto(Encode(t)[..n], u) == None
  {
    FitsIsAllFit(t);
    EncodeSplits(t);
    assert Encode(t)[..n] == EncodeFields(CoreFields(t))[..n];
    FieldsTruncated(CoreFields(t), n);
    KindsOfCore(t);
  }

  /** A payload that ends exactly after CreatedAt (the older layout) decodes and leaves the
      three newer fields as they were. */
  lemma OlderLayoutDecodes(t: Task, u: Task)
    requires Fits(t)
    ensures DecodeInto(EncodeFields(CoreFields(t)), u)
         == Some(t.(uniqueScope := u.uniqueScope, groupKey := u.groupKey, deadlineMs := u.deadlineMs,
             result := u.result))
  {
    FitsIsAllFit(t);
    CoreDecodes(t, []);
    assert EncodeFields(CoreFields(t)) + [] == EncodeFields(CoreFields(t));
  }

  lemma StrayTrailing(stray: Bytes, u: Task)
    requires 2 <= |stray| <= 3
    ensures DecodeTrailing(stray, u) ==
      if Get(stray[..2]) <= |stray| - 2 then Some(u.(groupKey := stray[2..2 + Get(stray[..2])])) else None
  {
  }

  /** Two or three stray octets after the core are not skipped: the parser, too short of data
      for the scope word, reads them as a group-key header. Such data decodes if and only if
      that header is zero or the third octet is its one-character group key, and then that octet
      has become the task's group key. */
  lemma StrayOctetsReadAsGroupKey(t: Task, stray: Bytes)
    requires Fits(t) && 2 <= |stray| <= 3
    ensures var r := Decode(EncodeFields(CoreFields(t)) + stray);
            && (r.Some? <==> Get(stray[..2]) <= |stray| - 2)
            && (r.Some? ==> r.value == t.(uniqueScope := 0, groupKey := stray[2..2 + Get(stray[..2])], deadlineMs := 0,
                                          result := []))
  {
    FitsIsAllFit(t);
    CoreDecodes(t, stray);
    StrayTrailing(stray, FromCore(CoreFields(t), EMPTY_TASK));
  }

  // ---- Marshal: fill a buffer through a moving offset ---------------------

  class Writer {
    const buf: array<Byte>
    var offset: nat
    ghost var written: seq<Field>

    ghost predicate Valid() reads this, buf {
      offset <= buf.Length && buf[..offset] == EncodeFields(written)
    }

    constructor (size: nat)
      ensures Valid() && fresh(buf) && buf.Length == size && offset == 0 && written == []
    {
      buf := new Byte[size](_ => 0);
      offset, written := 0, [];
    }

    /** copy(buf[offset:], b); offset += len(b) */
    method Copy(b: Bytes)
      requires offset + |b| <= buf.Length
      modifies this`offset, buf
      ensures offset == old(offset) + |b|
      ensures buf[..offset] == old(buf[..offset]) + b
    {
      forall i | 0 <= i < |b| { buf[offset + i] := b[i]; }
      offset := offset + |b|;
    }

    ghost method Wrote(f: Field)
      requires offset <= buf.Length && buf[..offset] == EncodeFields(written) + EncodeField(f)
      modifies this`written
      ensures Valid() && written == old(written) + [f]
    {
      EncodeConcat(written, [f]);
      assert EncodeFields([f]) == EncodeField(f);
      written := written + [f];
    }

    method WriteString16(s: Bytes)
      requires Valid() && offset + 2 + |s| <= buf.Length
      modifies this, buf
      ensures Valid() && offset == old(offset) + 2 + |s| && written == old(written) + [Str16(s)]
    {
      Copy(Put(|s|, 2));
      Copy(s);
      assert buf[..offset] == EncodeFields(written) + EncodeField(Str16(s));
      Wrote(Str16(s));
    }

    method WriteString32(s: Bytes)
      requires Valid() && offset + 4 + |s| <= buf.Length
      modifies this, buf
      ensures Valid() && offset == old(offset) + 4 + |s| && written == old(written) + [Str32(s)]
    {
      Copy(Put(|s|, 4));
      Copy(s);
      assert buf[..offset] == EncodeFields(written) + EncodeField(Str32(s));
      Wrote(Str32(s));
    }

    method WriteUint32(n: int)
      requires Valid() && offset + 4 <= buf.Length
      modifies this, buf
      ensures Valid() && offset == old(offset) + 4 && written == old(written) + [Word32(n)]
    {
      Copy(Put(n, 4));
      Wrote(Word32(n));
    }

    method WriteUint64(n: int)
      requires Valid() && offset + 8 <= buf.Length
      modifies this, buf
      ensures Valid() && offset == old(offset) + 8 && written == old(written) + [Word64(n)]
    {
      Copy(Put(n, 8));
      Wrote(Word64(n));
    }
  }

  method MarshalHead(w: Writer, t: Task)
    requires w.Valid() && w.offset + 18 + |t.id| + |t.queue| + |t.name| + |t.payload| <= w.buf.Length
    modifies w, w.buf
    ensures w.Valid() && w.offset == old(w.offset) + 18 + |t.id| + |t.queue| + |t.name| + |t.payload|
    ensures w.written == old(w.written) + CoreFields(t)[..6]
  {
    w.WriteString16(t.id);
    w.WriteString16(t.queue);
    w.WriteString16(t.name);
    w.WriteString32(t.payload);
    w.WriteUint32(t.retry);
    w.WriteUint32(t.maxRetry);
  }

  method MarshalRest(w: Writer, t: Task)
    requires w.Valid() && w.offset + 32 + |t.uniqueKey| + |t.lastError| + |t.cronSpec| <= w.buf.Length
    modifies w, w.buf
    ensures w.Valid() && w.offset == old(w.offset) + 32 + |t.uniqueKey| + |t.lastError| + |t.cronSpec|
    ensures w.written == old(w.written) + CoreFields(t)[6..]
  {
    w.WriteUint64(t.timeoutMs);
    w.WriteString16(t.uniqueKey);
    w.WriteUint64(t.uniqueTtlMs);
    w.WriteString32(t.lastError);
    w.WriteString16(t.cronSpec);
    w.WriteUint64(t.createdAtNs);
  }

  /** The size computed up front is exactly what the fifteen writes fill. */
  method Marshal(t: Task) returns (data: Bytes)
    ensures data == Encode(t)
  {
    var size := 0;
    size := size + 2 + |t.id| + 2 + |t.queue| + 2 + |t.name| + 4 + |t.payload|;
    size := size + 4 + 4 + 8;
    size := size + 2 + |t.uniqueKey| + 8 + 4 + |t.lastError| + 2 + |t.cronSpec| + 8;
    size := size + 4 + 2 + |t.groupKey| + 8;
    var w := new Writer(size);
    MarshalHead(w, t);
    MarshalRest(w, t);
    w.WriteUint32(t.uniqueScope);
    w.WriteString16(t.groupKey);
    w.WriteUint64(t.deadlineMs);
    assert w.written == CoreFields(t) + TrailingFields(t);
    data := w.buf[..];
    assert data == w.buf[..w.offset];
  }

  // ---- Unmarshal: read fields through a moving offset ----------------------

  class Reader {
    const data: Bytes
    var offset: nat
    ghost var got: seq<Field>
    ghost var next: nat

    /** What is still unread decides what the whole core parse gives. */
    ghost predicate Valid() reads this {
      && offset <= |data| && next <= 12
      && DecodeFields(CORE_KINDS, data) == Prepend(got, DecodeFields(CORE_KINDS[next..], data[offset..]))
    }

    constructor (data: Bytes)
      ensures Valid() && this.data == data && offset == 0 && got == [] && next == 0
    {
      this.data := data;
      offset, got, next := 0, [], 0;
      new;
      assert data[0..] == data;
      assert forall fs: seq<Field> :: [] + fs == fs;
    }

    method Advance(ghost f: Field, n: nat)
      requires Valid() && next < 12 && n <= |data|
      requires DecodeField(CORE_KINDS[next], data[offset..]) == Some((f, data[n..]))
      modifies this
      ensures Valid() && offset == n && got == old(got) + [f] && next == old(next) + 1
    {
      assert forall fs: seq<Field> :: got + ([f] + fs) == (got + [f]) + fs;
      offset := n;
      got, next := got + [f], next + 1;
    }

    method ReadString(k: Kind) returns (ok: bool, s: Bytes)
      requires Valid() && next < 12 && CORE_KINDS[next] == k && k in {KStr16, KStr32}
      modifies this
      ensures ok ==> Valid() && next == old(next) + 1 && got == old(got) + [if k == KStr16 then Str16(s) else Str32(s)]
      ensures !ok ==> DecodeFields(CORE_KINDS, data).None?
    {
      var w := if k == KStr16 then 2 else 4;
      ghost var at := data[offset..];
      assert offset + w <= |data| ==> at[..w] == data[offset..offset + w];
      if offset + w > |data| { return false, []; }
      var length := Get(data[offset..offset + w]);
      if length > |data| - (offset + w) { return false, []; }
      ok, s := true, data[offset + w..offset + w + length];
      assert at[w..w + length] == s && at[w + length..] == data[offset + w + length..];
      Advance(if k == KStr16 then Str16(s) else Str32(s), offset + w + length);
    }

    method ReadInt32() returns (ok: bool, n: int)
      requires Valid() && next < 12 && CORE_KINDS[next] == KInt32
      modifies this
      ensures ok ==> Valid() && next == old(next) + 1 && got == old(got) + [Word32(n)]
      ensures !ok ==> DecodeFields(CORE_KINDS, data).None?
    {
      if offset + 4 > |data| { return false, 0; }
      ok, n := true, Signed(Get(data[offset..offset + 4]), 4);
      assert data[offset..][..4] == data[offset..offset + 4] && data[offset..][4..] == data[offset + 4..];
      Advance(Word32(n), offset + 4);
    }

    method ReadInt64() returns (ok: bool, n: int)
      requires Valid() && next < 12 && CORE_KINDS[next] == KInt64
      modifies this
      ensures ok ==> Valid() && next == old(next) + 1 && got == old(got) + [Word64(n)]
      ensures !ok ==> DecodeFields(CORE_KINDS, data).None?
    {
      if offset + 8 > |data| { return false, 0; }
      ok, n := true, Signed(Get(data[offset..offset + 8]), 8);
      assert data[offset..][..8] == data[offset..offset + 8] && data[offset..][8..] == data[offset + 8..];
      Advance(Word64(n), offset + 8);
    }
  }

  method UnmarshalHead(r: Reader, into: Task) returns (ok: bool, t: Task)
    requires r.Valid() && r.got == [] && r.next == 0
    modifies r
    ensures ok ==> r.Valid() && r.next == 4 && r.got == CoreFields(t)[..4]
    ensures ok ==> t == into.(id := t.id, queue := t.queue, name := t.name, payload := t.payload)
    ensures !ok ==> DecodeFields(CORE_KINDS, r.data).None?
  {
    t := into;
    var s;
    ok, s := r.ReadString(KStr16);  if !ok { return; }  t := t.(id := s);
    ok, s := r.ReadString(KStr16);  if !ok { return; }  t := t.(queue := s);
    ok, s := r.ReadString(KStr16);  if !ok { return; }  t := t.(name := s);
    ok, s := r.ReadString(KStr32);  if !ok { return; }  t := t.(payload := s);
    assert CoreFields(t)[..4] == [Str16(t.id), Str16(t.queue), Str16(t.name), Str32(t.payload)];
  }

  method UnmarshalSettings(r: Reader, into: Task) returns (ok: bool, t: Task)
    requires r.Valid() && r.got == CoreFields(into)[..4] && r.next == 4
    modifies r
    ensures ok ==> r.Valid() && r.next == 8 && r.got == CoreFields(t)[..8]
    ensures ok ==> t == into.(retry := t.retry, maxRetry := t.maxRetry, timeoutMs := t.timeoutMs,
        uniqueKey := t.uniqueKey)
    ensures !ok ==> DecodeFields(CORE_KINDS, r.data).None?
  {
    t := into;
    var s, n;
    ok, n := r.ReadInt32();         if !ok { return; }  t := t.(retry := n);
    ok, n := r.ReadInt32();         if !ok { return; }  t := t.(maxRetry := n);
    ok, n := r.ReadInt64();         if !ok { return; }  t := t.(timeoutMs := n);
    ok, s := r.ReadString(KStr16);  if !ok { return; }  t := t.(uniqueKey := s);
  }

  method UnmarshalRest(r: Reader, into: Task) returns (ok: bool, t: Task)
    requires r.Valid() && r.got == CoreFields(into)[..8] && r.next == 8
    modifies r
    ensures ok ==> r.Valid() && r.next == 12 && r.got == CoreFields(t)
    ensures ok ==> t == into.(uniqueTtlMs := t.uniqueTtlMs, lastError := t.lastError, cronSpec := t.cronSpec,
        createdAtNs := t.createdAtNs)
    ensures !ok ==> DecodeFields(CORE_KINDS, r.data).None?
  {
    t := into;
    var s, n;
    ok, n := r.ReadInt64();         if !ok { return; }  t := t.(uniqueTtlMs := n);
    ok, s := r.ReadString(KStr32);  if !ok { return; }  t := t.(lastError := s);
    ok, s := r.ReadString(KStr16);  if !ok { return; }  t := t.(cronSpec := s);
    ok, n := r.ReadInt64();         if !ok { return; }  t := t.(createdAtNs := n);
  }

  /** The trailing fields as far as they are there, from `offset` on. */
  method UnmarshalTrailing(data: Bytes, start: nat, core: Task) returns (ok: bool, t: Task)
    requires start <= |data|
    ensures ok == DecodeTrailing(data[start..], core).Some?
    ensures ok ==> t == DecodeTrailing(data[start..], core).value
  {
    t := core;
    var offset := start;
    if offset + 4 <= |data| {
      assert data[start..][..4] == data[offset..offset + 4];
      t := t.(uniqueScope := Signed(Get(data[offset..offset + 4]), 4));
      offset := offset + 4;
      assert data[start..][4..] == data[offset..];
    }
    ghost var d1 := data[offset..];
    if offset + 2 <= |data| {
      assert d1[..2] == data[offset..offset + 2];
      var length := Get(data[offset..offset + 2]);
      if length > |data| - (offset + 2) { return false, t; }
      t := t.(groupKey := data[offset + 2..offset + 2 + length]);
      offset := offset + 2 + length;
      assert d1[2..2 + length] == t.groupKey && d1[2 + length..] == data[offset..];
    }
    if offset + 8 <= |data| {
      assert data[offset..][..8] == data[offset..offset + 8];
      t := t.(deadlineMs := Signed(Get(data[offset..offset + 8]), 8));
    }
    ok := true;
  }

  /** Reads the twelve core fields in order, stopping at the first that is out of bounds,
      then the trailing fields as far as they are there. */
  method Unmarshal(data: Bytes, into: Task) returns (ok: bool, t: Task)
    ensures ok == DecodeInto(data, into).Some?
    ensures ok ==> t == DecodeInto(data, into).value
  {
    t := into;
    if |data| < 2 { return false, t; }
    var r := new Reader(data);
    ok, t := UnmarshalHead(r, into);
    if !ok { return; }
    ok, t := UnmarshalSettings(r, t);
    if !ok { return; }
    ok, t := UnmarshalRest(r, t);
    if !ok { return; }
    assert CoreFields(t) + [] == CoreFields(t);
    assert DecodeFields(CORE_KINDS, data) == Some((CoreFields(t), data[r.offset..]));
    ok, t := UnmarshalTrailing(data, r.offset, t);
  }
}
