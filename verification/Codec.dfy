/** The Firestore REST value codec: Python values to tagged JSON values and back. */
module Codec {
  import opened Text
  import opened Values

  /** A tagged JSON value. `ArrayNoValues` and `MapNoFields` are the tags whose member the server left out. */
  datatype Wire =
    | NullValue
    | BooleanValue(b: bool)
    | IntegerValue(text: string)
    | DoubleValue(f: Number)
    | StringValue(s: string)
    | TimestampValue(iso: string)
    | ArrayValue(values: seq<Wire>)
    | ArrayNoValues
    | MapValue(fields: map<string, Wire>)
    | MapNoFields
    | Unrecognised

  function IsoText(m: Moment): string {
    m.date + "T" + (if m.time.Some? then m.time.value else "00:00:00")
    + (if m.time.Some? && m.zone.Some? then m.zone.value else "+00:00")
  }

  function Encode(v: Value): (w: Wire) {
    match v
    case Null => NullValue
    case Bool(b) => BooleanValue(b)
    case Int(i) => IntegerValue(IntText(i))
    case Float(f) => DoubleValue(f)
    case Str(s) => StringValue(s)
    case Time(m) => TimestampValue(IsoText(m))
    case List(xs) => ArrayValue(seq(|xs|, i requires 0 <= i < |xs| => Encode(xs[i])))
    case Dict(fields) => MapValue(map k | k in fields :: Encode(fields[k]))
    case Other(text) => StringValue(text)
  }

  /** None stands for the ValueError of `int(...)` on text that is not a number. */
  function Decode(w: Wire): (v: Option<Value>) {
    match w
    case NullValue => Some(Null)
    case BooleanValue(b) => Some(Bool(b))
    case IntegerValue(text) => (match ParseInt(text) case None => None case Some(i) => Some(Int(i)))
    case DoubleValue(f) => Some(Float(f))
    case StringValue(s) => Some(Str(s))
    case TimestampValue(iso) => Some(Str(iso))
    case ArrayValue(ws) =>
      if forall i :: 0 <= i < |ws| ==> Decode(ws[i]).Some? then
        Some(List(seq(|ws|, i requires 0 <= i < |ws| && Decode(ws[i]).Some? => Decode(ws[i]).value)))
      else None
    case ArrayNoValues => Some(List([]))
    case MapValue(ws) =>
      if forall k :: k in ws ==> Decode(ws[k]).Some? then
        Some(Dict(map k | k in ws :: Decode(ws[k]).value))
      else None
    case MapNoFields => Some(Dict(map[]))
    case Unrecognised => Some(Null)
  }

  /** Built only from null, bool, int, float, str, list and dict: what JSON can carry. */
  predicate Plain(v: Value) {
    match v
    case Time(_) => false
    case Other(_) => false
    case List(xs) => forall i :: 0 <= i < |xs| ==> Plain(xs[i])
    case Dict(fields) => forall k :: k in fields ==> Plain(fields[k])
    case _ => true
  }

  /** The value with every datetime and foreign object replaced by the text that stands for it. */
  function Flatten(v: Value): Value {
    match v
    case Time(m) => Str(IsoText(m))
    case Other(text) => Str(text)
    case List(xs) => List(seq(|xs|, i requires 0 <= i < |xs| => Flatten(xs[i])))
    case Dict(fields) => Dict(map k | k in fields :: Flatten(fields[k]))
    case _ => v
  }

  /** The server's form of a value: empty lists and dictionaries lose their member. */
  function Trim(w: Wire): Wire {
    match w
    case ArrayValue(ws) =>
      if ws == [] then ArrayNoValues else ArrayValue(seq(|ws|, i requires 0 <= i < |ws| => Trim(ws[i])))
    case MapValue(ws) => if ws == map[] then MapNoFields else MapValue(map k | k in ws :: Trim(ws[k]))
    case _ => w
  }

  lemma DecodeArray(ws: seq<Wire>, vs: seq<Value>)
    requires |ws| == |vs| && forall i :: 0 <= i < |ws| ==> Decode(ws[i]) == Some(vs[i])
    ensures Decode(ArrayValue(ws)) == Some(List(vs))
  {
    assert Decode(ArrayValue(ws)).value.xs == vs;
  }

  lemma DecodeMap(ws: map<string, Wire>, vs: map<string, Value>)
    requires ws.Keys == vs.Keys && forall k :: k in ws ==> Decode(ws[k]) == Some(vs[k])
    ensures Decode(MapValue(ws)) == Some(Dict(vs))
  {
    assert Decode(MapValue(ws)).value.fields == vs;
  }

  lemma {:induction false} DecodeEncode(v: Value)
    ensures Decode(Encode(v)) == Some(Flatten(v))
  {
    match v
    case Int(i) => ParseIntOfText(i);
    case List(xs) =>
      forall i | 0 <= i < |xs| ensures Decode(Encode(xs[i])) == Some(Flatten(xs[i])) { DecodeEncode(xs[i]); }
      DecodeArray(Encode(v).values, Flatten(v).xs);
    case Dict(fields) =>
      forall k | k in fields ensures Decode(Encode(fields[k])) == Some(Flatten(fields[k])) { DecodeEncode(fields[k]); }
      DecodeMap(Encode(v).fields, Flatten(v).fields);
    case _ =>
  }

  lemma {:induction false} FlattenPlain(v: Value)
    ensures Plain(Flatten(v))
    ensures Flatten(v) == v <==> Plain(v)
  {
    match v
    case List(xs) =>
      forall i | 0 <= i < |xs| ensures Plain(Flatten(xs[i])) && (Flatten(xs[i]) == xs[i] <==> Plain(xs[i])) {
        FlattenPlain(xs[i]);
      }
      assert Flatten(v) == v <==> forall i :: 0 <= i < |xs| ==> Flatten(xs[i]) == xs[i];
    case Dict(fields) =>
      forall k | k in fields
        ensures Plain(Flatten(fields[k])) && (Flatten(fields[k]) == fields[k] <==> Plain(fields[k]))
      {
        FlattenPlain(fields[k]);
      }
      if forall k :: k in fields ==> Flatten(fields[k]) == fields[k] {
        assert Flatten(v).fields == fields;
      }
      if Flatten(v) == v {
        forall k | k in fields ensures Plain(fields[k]) { assert Flatten(v).fields[k] == Flatten(fields[k]); }
      }
    case _ =>
  }

  /** A stored value comes back unchanged exactly when it is plain. */
  lemma RoundTrip(v: Value)
    ensures Decode(Encode(v)) == Some(v) <==> Plain(v)
  {
    DecodeEncode(v);
    FlattenPlain(v);
  }

  /** Whatever the first trip changed, a second trip changes nothing more. */
  lemma SecondTripIsIdentity(v: Value, once: Value)
    requires Decode(Encode(v)) == Some(once)
    ensures Decode(Encode(once)) == Some(once)
  {
    DecodeEncode(v);
    FlattenPlain(v);
    RoundTrip(once);
  }

  lemma SameArray(ws: seq<Wire>, ts: seq<Wire>)
    requires |ws| == |ts| && forall i :: 0 <= i < |ws| ==> Decode(ts[i]) == Decode(ws[i])
    ensures Decode(ArrayValue(ts)) == Decode(ArrayValue(ws))
  {
    if forall i :: 0 <= i < |ws| ==> Decode(ws[i]).Some? {
      DecodeArray(ts, Decode(ArrayValue(ws)).value.xs);
    } else {
      var i :| 0 <= i < |ws| && Decode(ws[i]).None?;
      assert Decode(ts[i]).None?;
    }
  }

  lemma SameMap(ws: map<string, Wire>, ts: map<string, Wire>)
    requires ws.Keys == ts.Keys && forall k :: k in ws ==> Decode(ts[k]) == Decode(ws[k])
    ensures Decode(MapValue(ts)) == Decode(MapValue(ws))
  {
    if forall k :: k in ws ==> Decode(ws[k]).Some? {
      DecodeMap(ts, Decode(MapValue(ws)).value.fields);
    } else {
      var k :| k in ws && Decode(ws[k]).None?;
      assert k in ts && Decode(ts[k]).None?;
    }
  }

  /** The decoder reads the server's trimmed form as it reads the form that was sent. */
  lemma {:induction false} TrimIsInvisible(w: Wire)
    ensures Decode(Trim(w)) == Decode(w)
  {
    match w
    case ArrayValue(ws) =>
      if ws == [] {
        DecodeArray(ws, []);
      } else {
        forall i | 0 <= i < |ws| ensures Decode(Trim(ws[i])) == Decode(ws[i]) { TrimIsInvisible(ws[i]); }
        SameArray(ws, Trim(w).values);
      }
    case MapValue(ws) =>
      if ws == map[] {
        DecodeMap(ws, map[]);
      } else {
        forall k | k in ws ensures Decode(Trim(ws[k])) == Decode(ws[k]) { TrimIsInvisible(ws[k]); }
        SameMap(ws, Trim(w).fields);
      }
    case _ =>
  }

  // Whole documents ({"fields": ...}) go through the same converters field by field.

  function EncodeDoc(d: Doc): Wire {
    MapValue(map k | k in d :: Encode(d[k]))
  }

  /** A document of plain fields survives being stored, trimmed by the server and read back. */
  lemma DocRoundTrip(d: Doc)
    ensures Decode(Trim(EncodeDoc(d))) == Some(Dict(d)) <==> forall k :: k in d ==> Plain(d[k])
  {
    assert EncodeDoc(d) == Encode(Dict(d));
    TrimIsInvisible(EncodeDoc(d));
    RoundTrip(Dict(d));
  }

  /** On the wire a scalar carries its own tag and value, an integer as text that reads as that integer. */
  lemma ScalarsOnTheWire(b: bool, i: int, f: Number, s: string)
    ensures Encode(Null) == NullValue && Encode(Bool(b)) == BooleanValue(b)
    ensures Encode(Float(f)) == DoubleValue(f) && Encode(Str(s)) == StringValue(s)
    ensures Encode(Int(i)).IntegerValue? && ParseInt(Encode(Int(i)).text) == Some(i)
  {
    ParseIntOfText(i);
  }

  // ---- What the text of a datetime says ----

  /** The parts as `isoformat` prints them: ten characters of date, a time without sign, a zone that begins with one. */
  predicate IsMoment(m: Moment) {
    && |m.date| == 10
    && (m.time.Some? ==> forall i :: 0 <= i < |m.time.value| ==> !IsSign(m.time.value[i]))
    && (m.time.Some? && m.zone.Some? ==> m.zone.value != [] && IsSign(m.zone.value[0]))
  }

  predicate IsSign(c: char) {
    c == '+' || c == '-'
  }

  /** The part before the first sign. */
  function BeforeSign(s: string): (r: string)
    ensures |r| <= |s|
  {
    if s == [] || IsSign(s[0]) then [] else [s[0]] + BeforeSign(s[1..])
  }

  function ParseIso(text: string): Moment
    requires |text| > 10
  {
    var rest := text[11..];
    var time := BeforeSign(rest);
    Moment(text[..10], Some(time), Some(rest[|time|..]))
  }

  lemma {:induction false} BeforeSignOf(time: string, zone: string)
    requires forall i :: 0 <= i < |time| ==> !IsSign(time[i])
    requires zone != [] && IsSign(zone[0])
    ensures BeforeSign(time + zone) == time
  {
    if time == [] {
      assert time + zone == zone;
    } else {
      assert (time + zone)[1..] == time[1..] + zone;
      BeforeSignOf(time[1..], zone);
    }
  }

  lemma IsoParts(date: string, time: string, zone: string)
    requires |date| == 10 && zone != [] && IsSign(zone[0]) && forall i :: 0 <= i < |time| ==> !IsSign(time[i])
    ensures var iso := date + "T" + time + zone;
            |iso| > 10 && ParseIso(iso) == Moment(date, Some(time), Some(zone))
  {
    var iso := date + "T" + time + zone;
    assert iso[..10] == date && iso[11..] == time + zone;
    BeforeSignOf(time, zone);
    assert (time + zone)[|time|..] == zone;
  }

  /** A stored datetime comes back as text that still says date, time and zone: one without a zone is in UTC, a
      plain date is its midnight in UTC. A foreign object comes back as what `str` printed. */
  lemma TimestampSaysMoment(m: Moment, text: string)
    requires IsMoment(m)
    ensures var back := Decode(Encode(Time(m)));
            && back.Some? && back.value.Str? && |back.value.s| > 10
            && ParseIso(back.value.s) ==
               if m.time.None? then Moment(m.date, Some("00:00:00"), Some("+00:00"))
               else Moment(m.date, m.time, if m.zone.None? then Some("+00:00") else m.zone)
    ensures Decode(Encode(Other(text))) == Some(Str(text))
  {
    IsoParts(m.date, if m.time.Some? then m.time.value else "00:00:00",
             if m.time.Some? && m.zone.Some? then m.zone.value else "+00:00");
  }
}
