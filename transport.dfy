/**
 * The Parcelable side of ParcelableNotification: writeToParcel appends the
 * fields to a Parcel in a fixed order, and CREATOR.createFromParcel reads
 * them back in that order. Every optional field is preceded by a presence
 * flag, so that an absent date or coordinate comes back absent.
 */
module Transport {
  import opened Wrappers
  import opened Calendar
  import opened ParcelableNotification
  import opened Sequences

  /** One typed value in a parcel. */
  datatype Token =
    | Str(text: string)
    | Flag(present: bool)
    | Long(millis: int)
    | Double(numeral: string)

  // ----- the encoding -----

  function OptionalString(o: Option<string>): seq<Token>
  {
    if o.Some? then [Flag(true), Str(o.value)] else [Flag(false)]
  }

  function OptionalDate(o: Option<Instant>): seq<Token>
  {
    if o.Some? then [Flag(true), Long(o.value)] else [Flag(false)]
  }

  function OptionalDouble(o: Option<string>): seq<Token>
  {
    if o.Some? then [Flag(true), Double(o.value)] else [Flag(false)]
  }

  /** The device fields, in constructor order: OS name and version, browser name and version. */
  function EncodeDevice(src: Source): seq<Token>
  {
    OptionalString(src.osName) + OptionalString(src.osVersion)
      + OptionalString(src.browserName) + OptionalString(src.browserVersion)
  }

  function EncodePlace(place: Place): seq<Token>
  {
    OptionalString(place.location) + OptionalDouble(place.latitude) + OptionalDouble(place.longitude)
  }

  function SourceOf(n: Notification): Source
  {
    Source(n.browserName, n.browserVersion, n.osName, n.osVersion)
  }

  function PlaceOf(n: Notification): Place
  {
    Place(n.location, n.latitude, n.longitude)
  }

  /** The tokens writeToParcel appends, field by field in constructor order. */
  function Encode(n: Notification): (ts: seq<Token>)
    ensures 12 <= |ts| <= 20
    ensures ts[0] == Str(n.url) && ts[|ts| - 1] == Str(n.challenge)
  {
    [Str(n.url), Str(n.enrollmentId), Str(n.transactionToken)]
      + OptionalDate(n.date)
      + EncodeDevice(SourceOf(n))
      + EncodePlace(PlaceOf(n))
      + [Str(n.challenge)]
  }

  // ----- the decoding: each step returns the value and the tokens after it -----

  function TakeString(ts: seq<Token>): (r: Option<(string, seq<Token>)>)
    ensures r.Some? ==> |r.value.1| == |ts| - 1
  {
    if ts != [] && ts[0].Str? then Some((ts[0].text, ts[1..])) else None
  }

  function TakeFlag(ts: seq<Token>): (r: Option<(bool, seq<Token>)>)
    ensures r.Some? ==> |r.value.1| == |ts| - 1
  {
    if ts != [] && ts[0].Flag? then Some((ts[0].present, ts[1..])) else None
  }

  /** A date: milliseconds since the epoch, which a notification never holds negative. */
  function TakeLong(ts: seq<Token>): (r: Option<(Instant, seq<Token>)>)
    ensures r.Some? ==> |r.value.1| == |ts| - 1
  {
    if ts != [] && ts[0].Long? && ts[0].millis >= 0 then Some((ts[0].millis, ts[1..])) else None
  }

  function TakeDouble(ts: seq<Token>): (r: Option<(string, seq<Token>)>)
    ensures r.Some? ==> |r.value.1| == |ts| - 1
  {
    if ts != [] && ts[0].Double? then Some((ts[0].numeral, ts[1..])) else None
  }

  function TakeOptionalString(ts: seq<Token>): (r: Option<(Option<string>, seq<Token>)>)
    ensures r.Some? ==> |r.value.1| < |ts|
  {
    var (present, rest) :- TakeFlag(ts);
    if !present then Some((None, rest))
    else
      var (s, rest') :- TakeString(rest);
      Some((Some(s), rest'))
  }

  function TakeOptionalDate(ts: seq<Token>): (r: Option<(Option<Instant>, seq<Token>)>)
    ensures r.Some? ==> |r.value.1| < |ts|
  {
    var (present, rest) :- TakeFlag(ts);
    if !present then Some((None, rest))
    else
      var (t, rest') :- TakeLong(rest);
      Some((Some(t), rest'))
  }

  function TakeOptionalDouble(ts: seq<Token>): (r: Option<(Option<string>, seq<Token>)>)
    ensures r.Some? ==> |r.value.1| < |ts|
  {
    var (present, rest) :- TakeFlag(ts);
    if !present then Some((None, rest))
    else
      var (x, rest') :- TakeDouble(rest);
      Some((Some(x), rest'))
  }

  function TakeDevice(ts: seq<Token>): (r: Option<(Source, seq<Token>)>)
    ensures r.Some? ==> |r.value.1| <= |ts| - 4
  {
    var (osName, r1) :- TakeOptionalString(ts);
    var (osVersion, r2) :- TakeOptionalString(r1);
    var (browserName, r3) :- TakeOptionalString(r2);
    var (browserVersion, r4) :- TakeOptionalString(r3);
    Some((Source(browserName, browserVersion, osName, osVersion), r4))
  }

  function TakePlace(ts: seq<Token>): (r: Option<(Place, seq<Token>)>)
    ensures r.Some? ==> |r.value.1| <= |ts| - 3
  {
    var (location, r1) :- TakeOptionalString(ts);
    var (latitude, r2) :- TakeOptionalDouble(r1);
    var (longitude, r3) :- TakeOptionalDouble(r2);
    Some((Place(location, latitude, longitude), r3))
  }

  /** Reads one notification; None when a token is missing or of the wrong kind. */
  function Decode(ts: seq<Token>): (r: Option<(Notification, seq<Token>)>)
    ensures r.Some? ==> |r.value.1| <= |ts| - 12
  {
    var (url, r1) :- TakeString(ts);
    var (enrollmentId, r2) :- TakeString(r1);
    var (transactionToken, r3) :- TakeString(r2);
    var (date, r4) :- TakeOptionalDate(r3);
    var (src, r5) :- TakeDevice(r4);
    var (place, r6) :- TakePlace(r5);
    var (challenge, r7) :- TakeString(r6);
    Some((Notification(url, enrollmentId, transactionToken, date,
                       src.osName, src.osVersion, src.browserName, src.browserVersion,
                       place.location, place.latitude, place.longitude, challenge), r7))
  }

  // ----- the encoding and the decoding are inverse -----

  lemma TakeOptionalStringOf(o: Option<string>, rest: seq<Token>)
    ensures TakeOptionalString(OptionalString(o) + rest) == Some((o, rest))
  {
    var ts := OptionalString(o) + rest;
    assert ts[1..] == (if o.Some? then [Str(o.value)] + rest else rest);
    if o.Some? {
      assert ts[1..][1..] == rest;
    }
  }

  lemma TakeOptionalDateOf(o: Option<Instant>, rest: seq<Token>)
    ensures TakeOptionalDate(OptionalDate(o) + rest) == Some((o, rest))
  {
    var ts := OptionalDate(o) + rest;
    assert ts[1..] == (if o.Some? then [Long(o.value)] + rest else rest);
    if o.Some? {
      assert ts[1..][1..] == rest;
    }
  }

  lemma TakeOptionalDoubleOf(o: Option<string>, rest: seq<Token>)
    ensures TakeOptionalDouble(OptionalDouble(o) + rest) == Some((o, rest))
  {
    var ts := OptionalDouble(o) + rest;
    assert ts[1..] == (if o.Some? then [Double(o.value)] + rest else rest);
    if o.Some? {
      assert ts[1..][1..] == rest;
    }
  }

  lemma TakeStringOf(s: string, rest: seq<Token>)
    ensures TakeString([Str(s)] + rest) == Some((s, rest))
  {
    assert ([Str(s)] + rest)[1..] == rest;
  }

  lemma TakeDeviceOf(src: Source, rest: seq<Token>)
    ensures TakeDevice(EncodeDevice(src) + rest) == Some((src, rest))
  {
    var r4 := rest;
    var r3 := OptionalString(src.browserVersion) + r4;
    var r2 := OptionalString(src.browserName) + r3;
    var r1 := OptionalString(src.osVersion) + r2;
    assert EncodeDevice(src) + rest == OptionalString(src.osName) + r1;
    TakeOptionalStringOf(src.osName, r1);
    TakeOptionalStringOf(src.osVersion, r2);
    TakeOptionalStringOf(src.browserName, r3);
    TakeOptionalStringOf(src.browserVersion, r4);
  }

  lemma TakePlaceOf(place: Place, rest: seq<Token>)
    ensures TakePlace(EncodePlace(place) + rest) == Some((place, rest))
  {
    var r3 := rest;
    var r2 := OptionalDouble(place.longitude) + r3;
    var r1 := OptionalDouble(place.latitude) + r2;
    assert EncodePlace(place) + rest == OptionalString(place.location) + r1;
    TakeOptionalStringOf(place.location, r1);
    TakeOptionalDoubleOf(place.latitude, r2);
    TakeOptionalDoubleOf(place.longitude, r3);
  }

  /** Reading back what writeToParcel wrote yields the same notification, and nothing more is consumed. */
  lemma {:induction false} DecodeEncode(n: Notification, rest: seq<Token>)
    ensures Decode(Encode(n) + rest) == Some((n, rest))
  {
    var r7 := rest;
    var r6 := [Str(n.challenge)] + r7;
    var r5 := EncodePlace(PlaceOf(n)) + r6;
    var r4 := EncodeDevice(SourceOf(n)) + r5;
    var r3 := OptionalDate(n.date) + r4;
    var r2 := [Str(n.transactionToken)] + r3;
    var r1 := [Str(n.enrollmentId)] + r2;
    assert [Str(n.url), Str(n.enrollmentId), Str(n.transactionToken)]
        == [Str(n.url)] + [Str(n.enrollmentId)] + [Str(n.transactionToken)];
    Nest8([Str(n.url)], [Str(n.enrollmentId)], [Str(n.transactionToken)], OptionalDate(n.date),
            EncodeDevice(SourceOf(n)), EncodePlace(PlaceOf(n)), [Str(n.challenge)], rest);
    assert Encode(n) + rest == [Str(n.url)] + r1;
    TakeStringOf(n.url, r1);
    TakeStringOf(n.enrollmentId, r2);
    TakeStringOf(n.transactionToken, r3);
    TakeOptionalDateOf(n.date, r4);
    TakeDeviceOf(SourceOf(n), r5);
    TakePlaceOf(PlaceOf(n), r6);
    TakeStringOf(n.challenge, r7);
  }

  lemma TakeStringExact(ts: seq<Token>)
    requires TakeString(ts).Some?
    ensures ts == [Str(TakeString(ts).value.0)] + TakeString(ts).value.1
  {
    assert ts == [ts[0]] + ts[1..];
  }

  lemma TakeOptionalStringExact(ts: seq<Token>)
    requires TakeOptionalString(ts).Some?
    ensures ts == OptionalString(TakeOptionalString(ts).value.0) + TakeOptionalString(ts).value.1
  {
    assert ts == [ts[0]] + ts[1..];
    if ts[0].present {
      assert ts[1..] == [ts[1..][0]] + ts[1..][1..];
    }
  }

  lemma TakeOptionalDateExact(ts: seq<Token>)
    requires TakeOptionalDate(ts).Some?
    ensures ts == OptionalDate(TakeOptionalDate(ts).value.0) + TakeOptionalDate(ts).value.1
  {
    assert ts == [ts[0]] + ts[1..];
    if ts[0].present {
      assert ts[1..] == [ts[1..][0]] + ts[1..][1..];
    }
  }

  lemma TakeOptionalDoubleExact(ts: seq<Token>)
    requires TakeOptionalDouble(ts).Some?
    ensures ts == OptionalDouble(TakeOptionalDouble(ts).value.0) + TakeOptionalDouble(ts).value.1
  {
    assert ts == [ts[0]] + ts[1..];
    if ts[0].present {
      assert ts[1..] == [ts[1..][0]] + ts[1..][1..];
    }
  }

  lemma TakeDeviceExact(ts: seq<Token>)
    requires TakeDevice(ts).Some?
    ensures ts == EncodeDevice(TakeDevice(ts).value.0) + TakeDevice(ts).value.1
  {
    var r1 := TakeOptionalString(ts).value.1;
    var r2 := TakeOptionalString(r1).value.1;
    var r3 := TakeOptionalString(r2).value.1;
    TakeOptionalStringExact(ts);
    TakeOptionalStringExact(r1);
    TakeOptionalStringExact(r2);
    TakeOptionalStringExact(r3);
    var src := TakeDevice(ts).value.0;
    Nest4(OptionalString(src.osName), OptionalString(src.osVersion), OptionalString(src.browserName),
          OptionalString(src.browserVersion), TakeDevice(ts).value.1);
  }

  lemma TakePlaceExact(ts: seq<Token>)
    requires TakePlace(ts).Some?
    ensures ts == EncodePlace(TakePlace(ts).value.0) + TakePlace(ts).value.1
  {
    var r1 := TakeOptionalString(ts).value.1;
    var r2 := TakeOptionalDouble(r1).value.1;
    TakeOptionalStringExact(ts);
    TakeOptionalDoubleExact(r1);
    TakeOptionalDoubleExact(r2);
    var place := TakePlace(ts).value.0;
    Nest3(OptionalString(place.location), OptionalDouble(place.latitude), OptionalDouble(place.longitude),
          TakePlace(ts).value.1);
  }

  /** Decode accepts nothing but an encoding: what it consumes is exactly Encode of what it returns. */
  lemma {:induction false} DecodeExact(ts: seq<Token>)
    requires Decode(ts).Some?
    ensures ts == Encode(Decode(ts).value.0) + Decode(ts).value.1
  {
    var r1 := TakeString(ts).value.1;
    var r2 := TakeString(r1).value.1;
    var r3 := TakeString(r2).value.1;
    var r4 := TakeOptionalDate(r3).value.1;
    var r5 := TakeDevice(r4).value.1;
    var r6 := TakePlace(r5).value.1;
    TakeStringExact(ts);
    TakeStringExact(r1);
    TakeStringExact(r2);
    TakeOptionalDateExact(r3);
    TakeDeviceExact(r4);
    TakePlaceExact(r5);
    TakeStringExact(r6);
    var n := Decode(ts).value.0;
    var rest := Decode(ts).value.1;
    assert r6 == [Str(n.challenge)] + rest;
    assert r5 == EncodePlace(PlaceOf(n)) + r6;
    assert r4 == EncodeDevice(SourceOf(n)) + r5;
    assert r3 == OptionalDate(n.date) + r4;
    assert ts == [Str(n.url)] + ([Str(n.enrollmentId)] + ([Str(n.transactionToken)] + r3));
    Nest8([Str(n.url)], [Str(n.enrollmentId)], [Str(n.transactionToken)], OptionalDate(n.date),
            EncodeDevice(SourceOf(n)), EncodePlace(PlaceOf(n)), [Str(n.challenge)], rest);
    assert [Str(n.url)] + [Str(n.enrollmentId)] + [Str(n.transactionToken)]
      == [Str(n.url), Str(n.enrollmentId), Str(n.transactionToken)];
  }

  /** No encoding is a proper prefix of another. */
  lemma EncodePrefixFree(n: Notification, m: Notification, x: seq<Token>)
    requires Encode(n) == Encode(m) + x
    ensures m == n && x == []
  {
    DecodeEncode(n, []);
    DecodeEncode(m, x);
    assert Encode(n) + [] == Encode(m) + x;
  }

  /** Whatever decodes from a prefix of an encoding is followed by nothing in that encoding. */
  lemma DecodedPrefix(ts: seq<Token>, tail: seq<Token>, n: Notification)
    requires Decode(ts).Some? && ts + tail == Encode(n)
    ensures Decode(ts).value.1 + tail == []
  {
    var m, r := Decode(ts).value.0, Decode(ts).value.1;
    DecodeExact(ts);
    Associate(Encode(m), r, tail);
    EncodePrefixFree(n, m, r + tail);
  }

  /** A parcel cut short anywhere inside a notification does not decode. */
  lemma {:induction false} TruncatedDoesNotDecode(n: Notification, k: nat)
    requires k < |Encode(n)|
    ensures Decode(Encode(n)[..k]) == None
  {
    var e := Encode(n);
    assert e[..k] + e[k..] == e;
    if Decode(e[..k]).Some? {
      DecodedPrefix(e[..k], e[k..], n);
    }
  }

  // ----- the parcel -----

  /**
   * An android.os.Parcel reduced to what the codec uses: the typed values
   * written so far and the position the next read starts from.
   */
  class Parcel {
    var data: seq<Token>
    var position: nat

    ghost predicate Valid()
      reads this
    {
      position <= |data|
    }

    /** The tokens from the position on. */
    function Unread(): seq<Token>
      reads this
      requires Valid()
    {
      data[position..]
    }

    /** Parcel.obtain(): an empty parcel. */
    constructor Obtain()
      ensures Valid() && data == [] && position == 0
    {
      data := [];
      position := 0;
    }

    /** Appends one value and moves the position past it. */
    method Write(t: Token)
      requires Valid()
      modifies this
      ensures Valid() && data == old(data) + [t] && position == |data|
    {
      data := data + [t];
      position := |data|;
    }

    /** setDataPosition: the next read starts at p, which must lie within the data. */
    method SetDataPosition(p: nat)
      requires Valid() && p <= |data|
      modifies this`position
      ensures Valid() && position == p
    {
      position := p;
    }

    method ReadString() returns (r: Option<string>)
      requires Valid()
      modifies this`position
      ensures Valid()
      ensures r.Some? <==> TakeString(old(Unread())).Some?
      ensures r.Some? ==> TakeString(old(Unread())) == Some((r.value, Unread()))
      ensures r.None? ==> position == old(position)
    {
      if position < |data| && data[position].Str? {
        r := Some(data[position].text);
        position := position + 1;
      } else {
        r := None;
      }
    }

    method ReadFlag() returns (r: Option<bool>)
      requires Valid()
      modifies this`position
      ensures Valid()
      ensures r.Some? <==> TakeFlag(old(Unread())).Some?
      ensures r.Some? ==> TakeFlag(old(Unread())) == Some((r.value, Unread()))
      ensures r.None? ==> position == old(position)
    {
      if position < |data| && data[position].Flag? {
        r := Some(data[position].present);
        position := position + 1;
      } else {
        r := None;
      }
    }

    method ReadLong() returns (r: Option<Instant>)
      requires Valid()
      modifies this`position
      ensures Valid()
      ensures r.Some? <==> TakeLong(old(Unread())).Some?
      ensures r.Some? ==> TakeLong(old(Unread())) == Some((r.value, Unread()))
      ensures r.None? ==> position == old(position)
    {
      if position < |data| && data[position].Long? && data[position].millis >= 0 {
        r := Some(data[position].millis);
        position := position + 1;
      } else {
        r := None;
      }
    }

    method ReadDouble() returns (r: Option<string>)
      requires Valid()
      modifies this`position
      ensures Valid()
      ensures r.Some? <==> TakeDouble(old(Unread())).Some?
      ensures r.Some? ==> TakeDouble(old(Unread())) == Some((r.value, Unread()))
      ensures r.None? ==> position == old(position)
    {
      if position < |data| && data[position].Double? {
        r := Some(data[position].numeral);
        position := position + 1;
      } else {
        r := None;
      }
    }
  }

  // ----- writeToParcel -----

  method WriteOptionalString(dest: Parcel, o: Option<string>)
    requires dest.Valid()
    modifies dest
    ensures dest.Valid() && dest.data == old(dest.data) + OptionalString(o) && dest.position == |dest.data|
  {
    dest.Write(Flag(o.Some?));
    if o.Some? {
      dest.Write(Str(o.value));
    }
  }

  method WriteOptionalDouble(dest: Parcel, o: Option<string>)
    requires dest.Valid()
    modifies dest
    ensures dest.Valid() && dest.data == old(dest.data) + OptionalDouble(o) && dest.position == |dest.data|
  {
    dest.Write(Flag(o.Some?));
    if o.Some? {
      dest.Write(Double(o.value));
    }
  }

  method WriteOptionalDate(dest: Parcel, o: Option<Instant>)
    requires dest.Valid()
    modifies dest
    ensures dest.Valid() && dest.data == old(dest.data) + OptionalDate(o) && dest.position == |dest.data|
  {
    dest.Write(Flag(o.Some?));
    if o.Some? {
      dest.Write(Long(o.value));
    }
  }

  method WriteDevice(dest: Parcel, src: Source)
    requires dest.Valid()
    modifies dest
    ensures dest.Valid() && dest.data == old(dest.data) + EncodeDevice(src) && dest.position == |dest.data|
  {
    ghost var d0 := dest.data;
    WriteOptionalString(dest, src.osName);
    ghost var d1 := dest.data;
    WriteOptionalString(dest, src.osVersion);
    ghost var d2 := dest.data;
    WriteOptionalString(dest, src.browserName);
    ghost var d3 := dest.data;
    WriteOptionalString(dest, src.browserVersion);
    Regroup4(d0, OptionalString(src.osName), OptionalString(src.osVersion),
             OptionalString(src.browserName), OptionalString(src.browserVersion));
  }

  method WritePlace(dest: Parcel, place: Place)
    requires dest.Valid()
    modifies dest
    ensures dest.Valid() && dest.data == old(dest.data) + EncodePlace(place) && dest.position == |dest.data|
  {
    ghost var d0 := dest.data;
    WriteOptionalString(dest, place.location);
    WriteOptionalDouble(dest, place.latitude);
    WriteOptionalDouble(dest, place.longitude);
    Regroup3(d0, OptionalString(place.location), OptionalDouble(place.latitude), OptionalDouble(place.longitude));
  }

  /** writeToParcel: appends the notification's encoding. */
  method WriteToParcel(n: Notification, dest: Parcel)
    requires dest.Valid()
    modifies dest
    ensures dest.Valid() && dest.data == old(dest.data) + Encode(n) && dest.position == |dest.data|
  {
    ghost var d0 := dest.data;
    dest.Write(Str(n.url));
    dest.Write(Str(n.enrollmentId));
    dest.Write(Str(n.transactionToken));
    assert dest.data == d0 + [Str(n.url), Str(n.enrollmentId), Str(n.transactionToken)];
    WriteOptionalDate(dest, n.date);
    WriteDevice(dest, SourceOf(n));
    WritePlace(dest, PlaceOf(n));
    dest.Write(Str(n.challenge));
    Regroup5(d0, [Str(n.url), Str(n.enrollmentId), Str(n.transactionToken)], OptionalDate(n.date),
             EncodeDevice(SourceOf(n)), EncodePlace(PlaceOf(n)), [Str(n.challenge)]);
  }

  // ----- createFromParcel -----

  method ReadOptionalString(src: Parcel) returns (r: Option<Option<string>>)
    requires src.Valid()
    modifies src`position
    ensures src.Valid()
    ensures r.Some? <==> TakeOptionalString(old(src.Unread())).Some?
    ensures r.Some? ==> TakeOptionalString(old(src.Unread())) == Some((r.value, src.Unread()))
  {
    var present := src.ReadFlag();
    if present == Some(false) {
      return Some(None);
    } else if present == Some(true) {
      var s := src.ReadString();
      if s.Some? {
        return Some(s);
      }
    }
    return None;
  }

  method ReadOptionalDate(src: Parcel) returns (r: Option<Option<Instant>>)
    requires src.Valid()
    modifies src`position
    ensures src.Valid()
    ensures r.Some? <==> TakeOptionalDate(old(src.Unread())).Some?
    ensures r.Some? ==> TakeOptionalDate(old(src.Unread())) == Some((r.value, src.Unread()))
  {
    var present := src.ReadFlag();
    if present == Some(false) {
      return Some(None);
    } else if present == Some(true) {
      var t := src.ReadLong();
      if t.Some? {
        return Some(t);
      }
    }
    return None;
  }

  method ReadOptionalDouble(src: Parcel) returns (r: Option<Option<string>>)
    requires src.Valid()
    modifies src`position
    ensures src.Valid()
    ensures r.Some? <==> TakeOptionalDouble(old(src.Unread())).Some?
    ensures r.Some? ==> TakeOptionalDouble(old(src.Unread())) == Some((r.value, src.Unread()))
  {
    var present := src.ReadFlag();
    if present == Some(false) {
      return Some(None);
    } else if present == Some(true) {
      var x := src.ReadDouble();
      if x.Some? {
        return Some(x);
      }
    }
    return None;
  }

  method ReadDevice(src: Parcel) returns (r: Option<Source>)
    requires src.Valid()
    modifies src`position
    ensures src.Valid()
    ensures r.Some? <==> TakeDevice(old(src.Unread())).Some?
    ensures r.Some? ==> TakeDevice(old(src.Unread())) == Some((r.value, src.Unread()))
  {
    var osName := ReadOptionalString(src);
    if osName.None? { return None; }
    var osVersion := ReadOptionalString(src);
    if osVersion.None? { return None; }
    var browserName := ReadOptionalString(src);
    if browserName.None? { return None; }
    var browserVersion := ReadOptionalString(src);
    if browserVersion.None? { return None; }
    return Some(Source(browserName.value, browserVersion.value, osName.value, osVersion.value));
  }

  method ReadPlace(src: Parcel) returns (r: Option<Place>)
    requires src.Valid()
    modifies src`position
    ensures src.Valid()
    ensures r.Some? <==> TakePlace(old(src.Unread())).Some?
    ensures r.Some? ==> TakePlace(old(src.Unread())) == Some((r.value, src.Unread()))
  {
    var location := ReadOptionalString(src);
    if location.None? { return None; }
    var latitude := ReadOptionalDouble(src);
    if latitude.None? { return None; }
    var longitude := ReadOptionalDouble(src);
    if longitude.None? { return None; }
    return Some(Place(location.value, latitude.value, longitude.value));
  }

  /** CREATOR.createFromParcel: reads one notification from the position on. */
  method CreateFromParcel(src: Parcel) returns (r: Option<Notification>)
    requires src.Valid()
    modifies src`position
    ensures src.Valid()
    ensures r.Some? <==> Decode(old(src.Unread())).Some?
    ensures r.Some? ==> Decode(old(src.Unread())) == Some((r.value, src.Unread()))
  {
    var url := src.ReadString();
    if url.None? { return None; }
    var enrollmentId := src.ReadString();
    if enrollmentId.None? { return None; }
    var transactionToken := src.ReadString();
    if transactionToken.None? { return None; }
    var date := ReadOptionalDate(src);
    if date.None? { return None; }
    var device := ReadDevice(src);
    if device.None? { return None; }
    var place := ReadPlace(src);
    if place.None? { return None; }
    var challenge := src.ReadString();
    if challenge.None? { return None; }
    var d, p := device.value, place.value;
    return Some(Notification(url.value, enrollmentId.value, transactionToken.value, date.value,
                             d.osName, d.osVersion, d.browserName, d.browserVersion,
                             p.location, p.latitude, p.longitude, challenge.value));
  }

  /**
   * Write, rewind, read: a notification comes back from a fresh parcel
   * equal in every field, absent fields still absent.
   */
  method ParcelRoundTrip(n: Notification) returns (r: Option<Notification>)
    ensures r == Some(n)
  {
    var parcel := new Parcel.Obtain();
    WriteToParcel(n, parcel);
    parcel.SetDataPosition(0);
    assert parcel.Unread() == Encode(n) + [];
    r := CreateFromParcel(parcel);
    DecodeEncode(n, []);
  }
}
