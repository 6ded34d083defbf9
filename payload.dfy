/**
 * The push payloads the notification is decoded from, built the way a
 * Guardian push arrives: a Bundle of string extras, filled one putString
 * at a time, with the device and location details as small JSON objects.
 * The scenarios at the end build a payload, decode it, send the result
 * through a parcel, and pin down what comes out.
 */
module ParcelableNotificationTest {
  import opened Wrappers
  import opened Calendar
  import opened Json
  import DateFormat
  import opened ParcelableNotification
  import opened Transport
  import opened Sequences

  const Hostname := "example.com"
  const HostnameHttp := "http://example.com/"
  const HostnameHttps := "https://example.com/"
  const DeviceId := "DEVICE_ID"
  const TransactionToken := "TRANSACTION_TOKEN"
  const Challenge := "CHALLENGE"
  const BrowserName := "BROWSER_NAME"
  const BrowserVersion := "BROWSER_VERSION"
  const OsName := "OS_NAME"
  const OsVersion := "OS_VERSION"
  const Location := "LOCATION"
  /** The coordinates as Java prints the doubles 56.87 and 34.34. */
  const Latitude := "56.87"
  const Longitude := "34.34"

  // ----- the bundle -----

  /** The extras after putString(key, value); a null value leaves the key unset. */
  function Put(entries: map<string, string>, key: string, value: Option<string>): map<string, string>
  {
    if value.Some? then entries[key := value.value] else entries - {key}
  }

  /** An android.os.Bundle holding string extras. */
  class Bundle {
    var entries: map<string, string>

    constructor ()
      ensures entries == map[]
    {
      entries := map[];
    }

    method PutString(key: string, value: Option<string>)
      modifies this
      ensures entries == Put(old(entries), key, value)
    {
      if value.Some? {
        entries := entries[key := value.value];
      } else {
        entries := entries - {key};
      }
    }
  }

  /** putString sets exactly the one key and leaves every other extra alone. */
  lemma PutOnlyTouchesKey(entries: map<string, string>, key: string, value: Option<string>, other: string)
    ensures Get(Put(entries, key, value), key) == value
    ensures other != key ==> Get(Put(entries, key, value), other) == Get(entries, other)
  {
  }

  // ----- the JSON extras -----

  /** How Java's string concatenation prints a possibly null value. */
  function Printed(o: Option<string>): string
  {
    if o.Some? then o.value else "null"
  }

  /** {"v": version, "n": name}, as the payload spells it. */
  function PairText(version: string, name: string): string
  {
    "{\"v\":\"" + version + "\",\"n\":\"" + name + "\"}"
  }

  /** The "s" extra: browser and OS, each a version and a name. */
  function SourceText(browserVersion: string, browserName: string, osVersion: string, osName: string): string
  {
    "{\"b\":" + PairText(browserVersion, browserName) + ",\"os\":" + PairText(osVersion, osName) + "}"
  }

  /** The "l" extra: location name and the two coordinates, all as JSON strings. */
  function LocationText(location: string, latitude: Option<string>, longitude: Option<string>): string
  {
    "{\"n\":\"" + location + "\",\"lat\":\"" + Printed(latitude) + "\",\"long\":\"" + Printed(longitude) + "\"}"
  }

  function Pair(version: string, name: string): Value
  {
    JObject(Member("v", JString(version), Member("n", JString(name), Empty)))
  }

  function SourceValue(browserVersion: string, browserName: string, osVersion: string, osName: string): Value
  {
    JObject(Member("b", Pair(browserVersion, browserName), Member("os", Pair(osVersion, osName), Empty)))
  }

  function LocationValue(location: string, latitude: string, longitude: string): Value
  {
    JObject(Member("n", JString(location),
            Member("lat", JString(latitude),
            Member("long", JString(longitude), Empty))))
  }

  /** Quote(k) followed by a colon and Quote(x): the text of one string member. */
  lemma RenderStringMember(k: string, x: string)
    ensures Quote(k) + [':'] + Render(JString(x)) == ['"'] + k + "\":\"" + x + "\""
  {
    var p := Quote(k) + [':'];
    assert p + ['"'] == ['"'] + k + "\":\"";
    Associate(p, ['"'] + x, ['"']);
    Associate(p, ['"'], x);
  }

  lemma RenderPair(version: string, name: string)
    ensures Render(Pair(version, name)) == PairText(version, name)
  {
    var inner := Member("n", JString(name), Empty);
    RenderStringMember("n", name);
    RenderStringMember("v", version);
    var a := RenderMembers(inner);
    assert a == "\"n\":\"" + name + "\"";
    var b := RenderMembers(Member("v", JString(version), inner));
    assert b == "\"v\":\"" + version + "\"" + [','] + a;
    Join("\"v\":\"", version, "\"", [','], "\"n\":\"", name, "\"");
    assert b == "\"v\":\"" + version + "\",\"n\":\"" + name + "\"";
    Associate(['{'] + "\"v\":\"" + version + "\",\"n\":\"" + name, "\"", ['}']);
  }

  /** The hand-written "s" text is the rendering of the nested JSON object. */
  lemma SourceTextIsJson(browserVersion: string, browserName: string, osVersion: string, osName: string)
    ensures SourceText(browserVersion, browserName, osVersion, osName)
         == Render(SourceValue(browserVersion, browserName, osVersion, osName))
  {
    var r1, r2 := PairText(browserVersion, browserName), PairText(osVersion, osName);
    RenderPair(browserVersion, browserName);
    RenderPair(osVersion, osName);
    var inner := Member("os", Pair(osVersion, osName), Empty);
    assert RenderMembers(inner) == "\"os\":" + r2;
    var m := RenderMembers(Member("b", Pair(browserVersion, browserName), inner));
    assert m == "\"b\":" + r1 + [','] + ("\"os\":" + r2);
    Associate("\"b\":" + r1 + [','], "\"os\":", r2);
    Associate("\"b\":" + r1, [','], "\"os\":");
    assert m == "\"b\":" + r1 + ",\"os\":" + r2;
    assert ['{'] + m == "{\"b\":" + r1 + ",\"os\":" + r2 by {
      Associate(['{'], "\"b\":" + r1 + ",\"os\":", r2);
      Associate(['{'], "\"b\":" + r1, ",\"os\":");
      Associate(['{'], "\"b\":", r1);
    }
  }

  lemma RenderCoordinates(latitude: string, longitude: string)
    ensures RenderMembers(Member("lat", JString(latitude), Member("long", JString(longitude), Empty)))
         == "\"lat\":\"" + latitude + "\",\"long\":\"" + longitude + "\""
  {
    RenderStringMember("lat", latitude);
    RenderStringMember("long", longitude);
    var ms3 := Member("long", JString(longitude), Empty);
    assert RenderMembers(ms3) == "\"long\":\"" + longitude + "\"";
    Join("\"lat\":\"", latitude, "\"", [','], "\"long\":\"", longitude, "\"");
  }

  lemma RenderLocationMembers(location: string, latitude: string, longitude: string)
    ensures RenderMembers(Member("n", JString(location), Member("lat", JString(latitude), Member("long", JString(longitude), Empty))))
         == "\"n\":\"" + location + "\",\"lat\":\"" + latitude + "\",\"long\":\"" + longitude + "\""
  {
    RenderStringMember("n", location);
    RenderCoordinates(latitude, longitude);
    JoinLonger("\"n\":\"", location, "\"", [','], "\"lat\":\"", latitude, "\",\"long\":\"", longitude, "\"");
  }

  /** The hand-written "l" text is the rendering of the flat JSON object. */
  lemma LocationTextIsJson(location: string, latitude: string, longitude: string)
    ensures LocationText(location, Some(latitude), Some(longitude))
         == Render(LocationValue(location, latitude, longitude))
  {
    RenderLocationMembers(location, latitude, longitude);
    Front(['{'], "\"n\":\"", location, "\",\"lat\":\"", latitude, "\",\"long\":\"", longitude, "\"");
    Associate(['{'] + "\"n\":\"" + location + "\",\"lat\":\"" + latitude + "\",\"long\":\"" + longitude, "\"", ['}']);
  }

  lemma KeysArePlain()
    ensures IsPlain("v") && IsPlain("n") && IsPlain("b") && IsPlain("os") && IsPlain("lat") && IsPlain("long")
  {
    forall i | 0 <= i < 2 ensures IsPlainChar("os"[i]) {
      if i == 0 {} else {}
    }
    forall i | 0 <= i < 3 ensures IsPlainChar("lat"[i]) {
      if i == 0 {} else if i == 1 {} else {}
    }
    forall i | 0 <= i < 4 ensures IsPlainChar("long"[i]) {
      if i == 0 {} else if i == 1 {} else if i == 2 {} else {}
    }
  }

  lemma PairWellFormed(version: string, name: string)
    requires IsPlain(version) && IsPlain(name)
    ensures WellFormed(Pair(version, name))
  {
    KeysArePlain();
    assert WellFormed(JString(name)) && WellFormed(JString(version)) && WellFormedMembers(Empty);
    assert WellFormedMembers(Member("n", JString(name), Empty));
  }

  lemma SourceLeaves(browserVersion: string, browserName: string, osVersion: string, osName: string)
    ensures var top := SourceValue(browserVersion, browserName, osVersion, osName).members;
      && NestedLeaf(top, "b", "n") == Text(browserName) && NestedLeaf(top, "b", "v") == Text(browserVersion)
      && NestedLeaf(top, "os", "n") == Text(osName) && NestedLeaf(top, "os", "v") == Text(osVersion)
  {
    var top := SourceValue(browserVersion, browserName, osVersion, osName).members;
    var os := Member("os", Pair(osVersion, osName), Empty);
    assert Lookup(os, "b") == None;
    assert Lookup(top, "b") == Some(Pair(browserVersion, browserName));
    assert Lookup(top, "os") == Some(Pair(osVersion, osName));
    PairLeaves(browserVersion, browserName);
    PairLeaves(osVersion, osName);
  }

  lemma PairLeaves(version: string, name: string)
    ensures Lookup(Pair(version, name).members, "v") == Some(JString(version))
    ensures Lookup(Pair(version, name).members, "n") == Some(JString(name))
  {
    assert Lookup(Member("n", JString(name), Empty), "v") == None;
  }

  lemma LocationLeaves(location: string, latitude: string, longitude: string)
    requires IsDecimal(latitude) && IsDecimal(longitude)
    ensures var top := LocationValue(location, latitude, longitude).members;
      && StringLeaf(Lookup(top, "n")) == Text(location)
      && NumberLeaf(Lookup(top, "lat")) == Text(latitude)
      && NumberLeaf(Lookup(top, "long")) == Text(longitude)
  {
    var long := Member("long", JString(longitude), Empty);
    var lat := Member("lat", JString(latitude), long);
    var top := Member("n", JString(location), lat);
    assert Lookup(long, "n") == None && Lookup(long, "lat") == None;
    assert Lookup(lat, "n") == None;
    assert Lookup(top, "n") == Some(JString(location));
    assert Lookup(lat, "lat") == Some(JString(latitude));
    assert Lookup(top, "lat") == Some(JString(latitude));
    assert Lookup(lat, "long") == Some(JString(longitude));
    assert Lookup(top, "long") == Some(JString(longitude));
  }

  /** Every field of a well-formed "s" extra reaches the notification. */
  lemma DecodeSourceText(browserVersion: string, browserName: string, osVersion: string, osName: string)
    requires IsPlain(browserVersion) && IsPlain(browserName) && IsPlain(osVersion) && IsPlain(osName)
    ensures DecodeSource(Some(SourceText(browserVersion, browserName, osVersion, osName)))
         == Source(Some(browserName), Some(browserVersion), Some(osName), Some(osVersion))
  {
    var v := SourceValue(browserVersion, browserName, osVersion, osName);
    SourceWellFormed(browserVersion, browserName, osVersion, osName);
    SourceTextIsJson(browserVersion, browserName, osVersion, osName);
    DecodeRendered(v);
    SourceLeaves(browserVersion, browserName, osVersion, osName);
  }

  lemma SourceWellFormed(browserVersion: string, browserName: string, osVersion: string, osName: string)
    requires IsPlain(browserVersion) && IsPlain(browserName) && IsPlain(osVersion) && IsPlain(osName)
    ensures WellFormed(SourceValue(browserVersion, browserName, osVersion, osName))
  {
    PairWellFormed(browserVersion, browserName);
    PairWellFormed(osVersion, osName);
    KeysArePlain();
    assert WellFormedMembers(Member("os", Pair(osVersion, osName), Empty));
  }

  lemma LocationWellFormed(location: string, latitude: string, longitude: string)
    requires IsPlain(location) && IsPlain(latitude) && IsPlain(longitude)
    ensures WellFormed(LocationValue(location, latitude, longitude))
  {
    KeysArePlain();
    assert WellFormed(JString(longitude)) && WellFormedMembers(Empty);
    assert WellFormedMembers(Member("long", JString(longitude), Empty));
    assert WellFormedMembers(Member("lat", JString(latitude), Member("long", JString(longitude), Empty)));
  }

  /** A location with decimal coordinates reaches the notification unchanged. */
  lemma DecodeLocationText(location: string, latitude: string, longitude: string)
    requires IsPlain(location) && IsPlain(latitude) && IsPlain(longitude)
    requires IsDecimal(latitude) && IsDecimal(longitude)
    ensures DecodeLocation(Some(LocationText(location, Some(latitude), Some(longitude))))
         == Place(Some(location), Some(latitude), Some(longitude))
  {
    var v := LocationValue(location, latitude, longitude);
    LocationWellFormed(location, latitude, longitude);
    LocationTextIsJson(location, latitude, longitude);
    DecodeRendered(v);
    LocationLeaves(location, latitude, longitude);
  }

  // ----- createPushNotificationPayload -----

  /** The "d" extra: the UTC wire form of the date, or nothing for a null date. */
  function DateText(date: Option<Instant>): Option<string>
  {
    if date.Some? then Some(DateFormat.FormatDate(date.value)) else None
  }

  /** The extras after the builder's seven putString calls, in its order. */
  function Extras(hostname: Option<string>, deviceId: Option<string>, transactionToken: Option<string>,
                  dateText: Option<string>, challenge: Option<string>, locationText: string): map<string, string>
  {
    var m := Put(map[], DateKey, dateText);
    var m := Put(m, SourceKey, Some(SourceText(BrowserVersion, BrowserName, OsVersion, OsName)));
    var m := Put(m, LocationKey, Some(locationText));
    var m := Put(m, HostnameKey, hostname);
    var m := Put(m, TransactionTokenKey, transactionToken);
    var m := Put(m, DeviceIdKey, deviceId);
    Put(m, ChallengeKey, challenge)
  }

  /** What createPushNotificationPayload returns for its arguments. */
  function Payload(hostname: Option<string>, deviceId: Option<string>, transactionToken: Option<string>,
                   date: Option<Instant>, challenge: Option<string>,
                   latitude: Option<string>, longitude: Option<string>): map<string, string>
  {
    Extras(hostname, deviceId, transactionToken, DateText(date), challenge, LocationText(Location, latitude, longitude))
  }

  method CreatePushNotificationPayload(hostname: Option<string>, deviceId: Option<string>,
                                       transactionToken: Option<string>, date: Option<Instant>,
                                       challenge: Option<string>,
                                       latitude: Option<string>, longitude: Option<string>)
    returns (data: Bundle)
    ensures fresh(data)
    ensures data.entries == Payload(hostname, deviceId, transactionToken, date, challenge, latitude, longitude)
  {
    data := new Bundle();
    data.PutString(DateKey, DateText(date));
    data.PutString(SourceKey, Some(SourceText(BrowserVersion, BrowserName, OsVersion, OsName)));
    data.PutString(LocationKey, Some(LocationText(Location, latitude, longitude)));
    data.PutString(HostnameKey, hostname);
    data.PutString(TransactionTokenKey, transactionToken);
    data.PutString(DeviceIdKey, deviceId);
    data.PutString(ChallengeKey, challenge);
  }

  lemma ExtrasKeys(hostname: Option<string>, deviceId: Option<string>, transactionToken: Option<string>,
                   dateText: Option<string>, challenge: Option<string>, locationText: string)
    ensures var data := Extras(hostname, deviceId, transactionToken, dateText, challenge, locationText);
      && Get(data, HostnameKey) == hostname
      && Get(data, DeviceIdKey) == deviceId
      && Get(data, TransactionTokenKey) == transactionToken
      && Get(data, ChallengeKey) == challenge
      && Get(data, DateKey) == dateText
      && Get(data, SourceKey) == Some(SourceText(BrowserVersion, BrowserName, OsVersion, OsName))
      && Get(data, LocationKey) == Some(locationText)
  {
  }

  /** Every extra the builder was given is present, under its own key, and no other is. */
  lemma PayloadExtras(hostname: Option<string>, deviceId: Option<string>, transactionToken: Option<string>,
                      date: Option<Instant>, challenge: Option<string>,
                      latitude: Option<string>, longitude: Option<string>)
    ensures var data := Payload(hostname, deviceId, transactionToken, date, challenge, latitude, longitude);
      && Get(data, HostnameKey) == hostname
      && Get(data, DeviceIdKey) == deviceId
      && Get(data, TransactionTokenKey) == transactionToken
      && Get(data, ChallengeKey) == challenge
      && Get(data, DateKey) == DateText(date)
      && Get(data, SourceKey) == Some(SourceText(BrowserVersion, BrowserName, OsVersion, OsName))
      && Get(data, LocationKey) == Some(LocationText(Location, latitude, longitude))
      && data.Keys <= RequiredKeys + {SourceKey, LocationKey}
  {
    ExtrasKeys(hostname, deviceId, transactionToken, DateText(date), challenge, LocationText(Location, latitude, longitude));
  }

  lemma ConstantsArePlain()
    ensures IsPlain(BrowserVersion) && IsPlain(BrowserName) && IsPlain(OsVersion) && IsPlain(OsName)
    ensures IsPlain(Location) && IsPlain(Latitude) && IsPlain(Longitude)
    ensures IsDecimal(Latitude) && IsDecimal(Longitude)
  {
    assert DigitRun(Latitude) == 2 by {
      assert Latitude[2..] == ".87";
      assert DigitRun(Latitude[2..]) == 0;
      assert Latitude[1..][1..] == Latitude[2..];
    }
    assert DigitRun(Latitude[3..]) == 2 by {
      assert Latitude[3..] == "87";
      assert Latitude[3..][1..] == "7";
      assert Latitude[3..][1..][1..] == "";
    }
    assert Latitude[0..] == Latitude && Latitude[2..] == ".87" && Latitude[2..][1..] == Latitude[3..];
    assert Latitude[3..][2..] == "";
    assert DigitRun(Longitude) == 2 by {
      assert Longitude[2..] == ".34";
      assert DigitRun(Longitude[2..]) == 0;
      assert Longitude[1..][1..] == Longitude[2..];
    }
    assert DigitRun(Longitude[3..]) == 2 by {
      assert Longitude[3..] == "34";
      assert Longitude[3..][1..] == "4";
      assert Longitude[3..][1..][1..] == "";
    }
    assert Longitude[0..] == Longitude && Longitude[2..] == ".34" && Longitude[2..][1..] == Longitude[3..];
    assert Longitude[3..][2..] == "";
  }

  /**
   * A complete payload decodes to a notification holding what was put in:
   * the host as its URL, the same instant, the device and location details.
   */
  lemma ParseCompletePayload(hostname: string, date: Instant)
    requires NormalizeUrl(hostname).Some?
    ensures Parse(Payload(Some(hostname), Some(DeviceId), Some(TransactionToken), Some(date), Some(Challenge),
                          Some(Latitude), Some(Longitude)))
         == Some(Notification(NormalizeUrl(hostname).value, DeviceId, TransactionToken, Some(date),
                              Some(OsName), Some(OsVersion), Some(BrowserName), Some(BrowserVersion),
                              Some(Location), Some(Latitude), Some(Longitude), Challenge))
  {
    var data := Payload(Some(hostname), Some(DeviceId), Some(TransactionToken), Some(date), Some(Challenge),
                        Some(Latitude), Some(Longitude));
    PayloadExtras(Some(hostname), Some(DeviceId), Some(TransactionToken), Some(date), Some(Challenge),
                  Some(Latitude), Some(Longitude));
    ConstantsArePlain();
    DateFormat.DateRoundTrip(date);
    DecodeSourceText(BrowserVersion, BrowserName, OsVersion, OsName);
    DecodeLocationText(Location, Latitude, Longitude);
    assert HasRequired(data);
  }

  /** Leaving out the host, device id, token, date or challenge leaves no notification. */
  lemma ParseIncompletePayload(hostname: Option<string>, deviceId: Option<string>, transactionToken: Option<string>,
                               date: Option<Instant>, challenge: Option<string>,
                               latitude: Option<string>, longitude: Option<string>)
    requires hostname.None? || deviceId.None? || transactionToken.None? || date.None? || challenge.None?
    ensures Parse(Payload(hostname, deviceId, transactionToken, date, challenge, latitude, longitude)) == None
  {
    var data := Payload(hostname, deviceId, transactionToken, date, challenge, latitude, longitude);
    PayloadExtras(hostname, deviceId, transactionToken, date, challenge, latitude, longitude);
    if hostname.None? {
      MissingRequiredKey(data, HostnameKey);
    } else if deviceId.None? {
      MissingRequiredKey(data, DeviceIdKey);
    } else if transactionToken.None? {
      MissingRequiredKey(data, TransactionTokenKey);
    } else if date.None? {
      MissingRequiredKey(data, DateKey);
    } else {
      MissingRequiredKey(data, ChallengeKey);
    }
  }

  /** A date that is not in the wire format leaves no notification. */
  lemma ParseUnparsableDate(hostname: string)
    ensures Parse(Put(Payload(Some(hostname), Some(DeviceId), Some(TransactionToken), None, Some(Challenge),
                              Some(Latitude), Some(Longitude)),
                      DateKey, Some("this date cannot be parsed"))) == None
  {
    DateFormat.ParseDateExample();
  }

  lemma HostnamesNormalize()
    ensures NormalizeUrl(Hostname) == Some(HostnameHttps)
    ensures NormalizeUrl(HostnameHttp) == Some(HostnameHttp)
    ensures NormalizeUrl(HostnameHttps) == Some(HostnameHttps)
  {
    NormalizeUrlCases(Hostname);
    NormalizeUrlCases(HostnameHttp);
    NormalizeUrlCases(HostnameHttps);
    assert HostnameHttp[..|Http|] == Http;
    assert HostnameHttps[..|Https|] == Https;
    assert Hostname[..|Http|][0] != Http[0] && Hostname[..|Https|][0] != Https[0];
    assert Https + Hostname + "/" == HostnameHttps;
  }

  // ----- the scenarios -----

  /** The fields every scenario built from the complete payload expects. */
  predicate Expected(n: Notification, url: string, date: Option<Instant>, latitude: Option<string>, longitude: Option<string>)
  {
    && n.url == url && n.date == date
    && n.browserName == Some(BrowserName) && n.browserVersion == Some(BrowserVersion)
    && n.osName == Some(OsName) && n.osVersion == Some(OsVersion)
    && n.enrollmentId == DeviceId && n.transactionToken == TransactionToken
    && n.location == Some(Location) && n.latitude == latitude && n.longitude == longitude
    && n.challenge == Challenge
  }

  /** An http host is kept as it was given. */
  method ShouldHaveCorrectDataWithHttpHostname(currentDate: Instant) returns (n: Option<Notification>)
    ensures n.Some? && Expected(n.value, HostnameHttp, Some(currentDate), Some(Latitude), Some(Longitude))
  {
    var data := CreatePushNotificationPayload(Some(HostnameHttp), Some(DeviceId), Some(TransactionToken),
                                              Some(currentDate), Some(Challenge), Some(Latitude), Some(Longitude));
    n := Parse(data.entries);
    HostnamesNormalize();
    ParseCompletePayload(HostnameHttp, currentDate);
  }

  method ShouldHaveCorrectDataWithHttpsHostname(currentDate: Instant) returns (n: Option<Notification>)
    ensures n.Some? && Expected(n.value, HostnameHttps, Some(currentDate), Some(Latitude), Some(Longitude))
  {
    var data := CreatePushNotificationPayload(Some(HostnameHttps), Some(DeviceId), Some(TransactionToken),
                                              Some(currentDate), Some(Challenge), Some(Latitude), Some(Longitude));
    n := Parse(data.entries);
    HostnamesNormalize();
    ParseCompletePayload(HostnameHttps, currentDate);
  }

  /** A bare host becomes an https URL with a root path. */
  method ShouldHaveCorrectDataAfterParse(currentDate: Instant) returns (n: Option<Notification>)
    ensures n.Some? && Expected(n.value, HostnameHttps, Some(currentDate), Some(Latitude), Some(Longitude))
  {
    var data := CreatePushNotificationPayload(Some(Hostname), Some(DeviceId), Some(TransactionToken),
                                              Some(currentDate), Some(Challenge), Some(Latitude), Some(Longitude));
    n := Parse(data.entries);
    HostnamesNormalize();
    ParseCompletePayload(Hostname, currentDate);
  }

  /** Decoded, written to a parcel, rewound and read back: nothing is lost. */
  method ShouldHaveCorrectDataAfterParcel(currentDate: Instant) returns (n: Option<Notification>)
    ensures n.Some? && Expected(n.value, HostnameHttps, Some(currentDate), Some(Latitude), Some(Longitude))
  {
    var data := CreatePushNotificationPayload(Some(Hostname), Some(DeviceId), Some(TransactionToken),
                                              Some(currentDate), Some(Challenge), Some(Latitude), Some(Longitude));
    var original := Parse(data.entries);
    HostnamesNormalize();
    ParseCompletePayload(Hostname, currentDate);
    n := ParcelRoundTrip(original.value);
  }

  /** Absent date and coordinates come back from the parcel still absent. */
  method ShouldHaveCorrectDataAfterParcelWithNulls() returns (n: Option<Notification>)
    ensures n.Some? && Expected(n.value, HostnameHttps, None, None, None)
  {
    var original := Notification(HostnameHttps, DeviceId, TransactionToken, None,
                                 Some(OsName), Some(OsVersion), Some(BrowserName), Some(BrowserVersion),
                                 Some(Location), None, None, Challenge);
    n := ParcelRoundTrip(original);
  }

  /** A date overwritten with text that is no timestamp leaves no notification. */
  method ShouldReturnNullIfDateCannotBeParsed() returns (n: Option<Notification>)
    ensures n.None?
  {
    var data := CreatePushNotificationPayload(Some(Hostname), Some(DeviceId), Some(TransactionToken),
                                              None, Some(Challenge), Some(Latitude), Some(Longitude));
    data.PutString(DateKey, Some("this date cannot be parsed"));
    n := Parse(data.entries);
    ParseUnparsableDate(Hostname);
  }
}
