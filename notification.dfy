/**
 * ParcelableNotification: the typed value a Guardian push payload decodes
 * to, and `parse`, which turns the flat string-keyed payload into it or
 * into nothing at all.
 */
module ParcelableNotification {
  import opened Wrappers
  import opened Calendar
  import DateFormat
  import opened Json

  const HostnameKey := "sh"
  const DeviceIdKey := "dai"
  const TransactionTokenKey := "txtkn"
  const DateKey := "d"
  const ChallengeKey := "c"
  const SourceKey := "s"
  const LocationKey := "l"

  /** The keys without which there is no notification. */
  const RequiredKeys: set<string> := {HostnameKey, DeviceIdKey, TransactionTokenKey, DateKey, ChallengeKey}

  /**
   * A decoded push notification, fields in the order of the class's
   * constructor. Latitude and longitude are carried as the decimal
   * numerals they were given as.
   */
  datatype Notification = Notification(
    url: string,
    enrollmentId: string,
    transactionToken: string,
    date: Option<Instant>,
    osName: Option<string>,
    osVersion: Option<string>,
    browserName: Option<string>,
    browserVersion: Option<string>,
    location: Option<string>,
    latitude: Option<string>,
    longitude: Option<string>,
    challenge: string)

  function Get(data: map<string, string>, key: string): Option<string>
  {
    if key in data then Some(data[key]) else None
  }

  // ----- the host URL -----

  const Http := "http://"
  const Https := "https://"

  predicate HasPrefix(s: string, prefix: string) {
    |prefix| <= |s| && s[..|prefix|] == prefix
  }

  /** An http or https URL with something after the scheme. */
  predicate IsAbsoluteUrl(u: string) {
    (HasPrefix(u, Https) && |u| > |Https|) || (HasPrefix(u, Http) && |u| > |Http|)
  }

  /**
   * The notification URL for the payload's "sh" value: a bare host gets
   * the https scheme and a root path; a value that already names the http
   * or https scheme is kept as it is; an empty host is no URL.
   */
  function NormalizeUrl(host: string): (r: Option<string>)
    ensures r.Some? ==> IsAbsoluteUrl(r.value)
    ensures host == [] ==> r.None?
  {
    if HasPrefix(host, Https) || HasPrefix(host, Http) then
      if IsAbsoluteUrl(host) then Some(host) else None
    else if host == [] then None
    else
      var u := Https + host + "/";
      assert u[..|Https|] == Https;
      Some(u)
  }

  lemma NormalizeUrlCases(host: string)
    ensures NormalizeUrl(host).Some? ==> IsAbsoluteUrl(NormalizeUrl(host).value)
    ensures IsAbsoluteUrl(host) ==> NormalizeUrl(host) == Some(host)
    ensures (!HasPrefix(host, Http) && !HasPrefix(host, Https) && host != []) ==>
              NormalizeUrl(host) == Some(Https + host + "/")
    ensures NormalizeUrl(host).None? <==> host == [] || host == Http || host == Https
  {
    assert Http[..|Http|] == Http && Https[..|Https|] == Https;
    assert |Http| == 7 && |Https| == 8 && Https[..|Http|][4] != Http[4];
    if HasPrefix(host, Http) && !IsAbsoluteUrl(host) {
      assert host == host[..|Http|];
    }
    if HasPrefix(host, Https) && !IsAbsoluteUrl(host) {
      assert host == host[..|Https|];
    }
    if !HasPrefix(host, Http) && !HasPrefix(host, Https) && host != [] {
      var u := Https + host + "/";
      assert u[..|Https|] == Https;
    }
  }

  /** A normalized URL is its own normal form. */
  lemma NormalizeUrlIdempotent(host: string)
    requires NormalizeUrl(host).Some?
    ensures NormalizeUrl(NormalizeUrl(host).value) == NormalizeUrl(host)
  {
    NormalizeUrlCases(host);
    NormalizeUrlCases(NormalizeUrl(host).value);
  }

  // ----- the nested "s" and "l" values -----

  /** A number spelled as JSON spells one: -?digits(.digits)?([eE][+-]?digits)? */
  predicate IsDecimal(s: string) {
    var i := if s != [] && s[0] == '-' then 1 else 0;
    var j := i + DigitRun(s[i..]);
    j > i && FractionAndExponent(s[j..])
  }

  predicate FractionAndExponent(s: string) {
    if s != [] && s[0] == '.' then
      var k := 1 + DigitRun(s[1..]);
      k > 1 && Exponent(s[k..])
    else Exponent(s)
  }

  predicate Exponent(s: string) {
    s == [] ||
      (&& (s[0] == 'e' || s[0] == 'E')
       && var i := if |s| > 1 && (s[1] == '+' || s[1] == '-') then 2 else 1;
          var j := i + DigitRun(s[i..]);
          j > i && j == |s|)
  }

  /** The number of leading digits. */
  function DigitRun(s: string): (n: nat)
    ensures n <= |s|
    ensures forall i :: 0 <= i < n ==> Digits.IsDigit(s[i])
    ensures n == |s| || !Digits.IsDigit(s[n])
  {
    if s != [] && Digits.IsDigit(s[0]) then 1 + DigitRun(s[1..]) else 0
  }

  /** What one path of a nested object holds. */
  datatype Leaf = Missing | Text(text: string) | Wrong {
    function ToOption(): Option<string> {
      if Text? then Some(text) else None
    }
  }

  function StringLeaf(v: Option<Json.Value>): Leaf
  {
    match v
    case None => Missing
    case Some(JString(x)) => Text(x)
    case Some(_) => Wrong
  }

  /** A coordinate: a JSON number or a string holding one. */
  function NumberLeaf(v: Option<Json.Value>): (r: Leaf)
    ensures r.Text? ==> IsDecimal(r.text)
  {
    match v
    case None => Missing
    case Some(JNumber(n)) => if IsDecimal(n) then Text(n) else Wrong
    case Some(JString(x)) => if IsDecimal(x) then Text(x) else Wrong
    case Some(_) => Wrong
  }

  /** The string at outer.inner. */
  function NestedLeaf(top: Json.Members, outer: string, inner: string): Leaf
  {
    match Json.Lookup(top, outer)
    case None => Missing
    case Some(JObject(ms)) => StringLeaf(Json.Lookup(ms, inner))
    case Some(_) => Wrong
  }

  datatype Source = Source(browserName: Option<string>, browserVersion: Option<string>,
                           osName: Option<string>, osVersion: Option<string>)

  const NoSource := Source(None, None, None, None)

  /** The "s" value: {"b":{"n":..,"v":..},"os":{"n":..,"v":..}}; anything malformed gives nothing. */
  function DecodeSource(raw: Option<string>): (r: Source)
    ensures raw.None? ==> r == NoSource
    ensures r != NoSource ==> Json.Decode(raw.value).Some? && Json.Decode(raw.value).value.JObject?
  {
    if raw.None? then NoSource
    else
      match Json.Decode(raw.value)
      case Some(JObject(top)) =>
        var bn, bv := NestedLeaf(top, "b", "n"), NestedLeaf(top, "b", "v");
        var on, ov := NestedLeaf(top, "os", "n"), NestedLeaf(top, "os", "v");
        if bn.Wrong? || bv.Wrong? || on.Wrong? || ov.Wrong? then NoSource
        else Source(bn.ToOption(), bv.ToOption(), on.ToOption(), ov.ToOption())
      case _ => NoSource
  }

  datatype Place = Place(location: Option<string>, latitude: Option<string>, longitude: Option<string>)

  const NoPlace := Place(None, None, None)

  /**
   * The "l" value: {"n":..,"lat":..,"long":..}; anything malformed gives
   * nothing. The coordinates come as a pair: one without the other makes
   * the value malformed.
   */
  function DecodeLocation(raw: Option<string>): (r: Place)
    ensures raw.None? ==> r == NoPlace
    ensures r.latitude.Some? <==> r.longitude.Some?
    ensures r.latitude.Some? ==> IsDecimal(r.latitude.value) && IsDecimal(r.longitude.value)
  {
    if raw.None? then NoPlace
    else
      match Json.Decode(raw.value)
      case Some(JObject(top)) =>
        var n := StringLeaf(Json.Lookup(top, "n"));
        var lat, long := NumberLeaf(Json.Lookup(top, "lat")), NumberLeaf(Json.Lookup(top, "long"));
        if n.Wrong? || lat.Wrong? || long.Wrong? || lat.Missing? != long.Missing? then NoPlace
        else if lat.Missing? then Place(n.ToOption(), None, None)
        else Place(n.ToOption(), Some(lat.text), Some(long.text))
      case _ => NoPlace
  }

  // ----- parse -----

  predicate HasRequired(data: map<string, string>) {
    forall k :: k in RequiredKeys ==> k in data
  }

  /**
   * Decodes a push payload: None when a required key is missing, when the
   * host is no URL or when the date is not a wire timestamp; otherwise
   * every field, with the optional ones absent where "s" or "l" do not
   * supply them.
   */
  function Parse(data: map<string, string>): (r: Option<Notification>)
    ensures r.Some? ==> HasRequired(data) && IsAbsoluteUrl(r.value.url) && r.value.date.Some?
    ensures r.Some? ==> (r.value.latitude.Some? <==> r.value.longitude.Some?)
  {
    if !HasRequired(data) then None
    else
      match (NormalizeUrl(data[HostnameKey]), DateFormat.ParseDate(data[DateKey]))
      case (Some(url), Some(date)) =>
        var src := DecodeSource(Get(data, SourceKey));
        var place := DecodeLocation(Get(data, LocationKey));
        Some(Notification(url, data[DeviceIdKey], data[TransactionTokenKey], Some(date),
                          src.osName, src.osVersion, src.browserName, src.browserVersion,
                          place.location, place.latitude, place.longitude, data[ChallengeKey]))
      case _ => None
  }

  /** Parse succeeds exactly when the required keys are there and the host and date are valid. */
  lemma ParseSucceedsExactly(data: map<string, string>)
    ensures Parse(data).Some? <==>
      && HasRequired(data)
      && NormalizeUrl(data[HostnameKey]).Some?
      && DateFormat.ParseDate(data[DateKey]).Some?
  {
  }

  /** Without any one of sh, dai, txtkn, d, c there is no notification. */
  lemma MissingRequiredKey(data: map<string, string>, key: string)
    requires key in RequiredKeys && key !in data
    ensures Parse(data) == None
  {
  }

  /** What a decoded notification holds, field by field. */
  lemma ParsedFields(data: map<string, string>)
    requires Parse(data).Some?
    ensures var n := Parse(data).value;
      && IsAbsoluteUrl(n.url) && NormalizeUrl(data[HostnameKey]) == Some(n.url)
      && n.enrollmentId == data[DeviceIdKey]
      && n.transactionToken == data[TransactionTokenKey]
      && n.challenge == data[ChallengeKey]
      && n.date.Some? && DateFormat.FormatDate(n.date.value) == data[DateKey]
      && DecodeSource(Get(data, SourceKey)) == Source(n.browserName, n.browserVersion, n.osName, n.osVersion)
      && DecodeLocation(Get(data, LocationKey)) == Place(n.location, n.latitude, n.longitude)
      && (n.latitude.Some? <==> n.longitude.Some?)
  {
    var n := Parse(data).value;
    NormalizeUrlCases(data[HostnameKey]);
    DateFormat.ParseDateExactly(data[DateKey], n.date.value);
  }

  /** Whatever "s" and "l" hold, they never decide whether a payload decodes. */
  lemma OptionalNeverBlocks(data: map<string, string>, key: string, text: Option<string>)
    requires key == SourceKey || key == LocationKey
    ensures var data' := if text.Some? then data[key := text.value] else data - {key};
      Parse(data').Some? == Parse(data).Some?
  {
    var data' := if text.Some? then data[key := text.value] else data - {key};
    assert forall k :: k in RequiredKeys ==> (k in data <==> k in data');
    if HasRequired(data) {
      assert data'[HostnameKey] == data[HostnameKey] && data'[DateKey] == data[DateKey];
    }
  }
}
