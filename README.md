# Guardian push notification: payload decoding and parcel transport

A model of `ParcelableNotification` from the Guardian Android SDK. This is the value a Guardian push
notification decodes to. Its behaviour is the contract that `ParcelableNotificationTest` pins
down. The model covers five parts:

- **`parse`.** It turns the push payload into a notification, or into nothing. The payload is a Bundle
  of string extras under the keys `sh`, `dai`, `txtkn`, `d`, `c`, `s` and `l`.
  - The host, device id, transaction token, date and challenge are required.
  - A bare host becomes `https://host/`. A host that already starts with `http://` or `https://` is
    kept as given. An http host is not upgraded to https, because the test at line 89 expects
    `http://example.com/` back unchanged.
  - The date must be written in UTC as `yyyy-MM-dd'T'HH:mm:ss.SSS'Z'`.
  - `s` is a small JSON object that carries the browser and OS names and versions.
  - `l` is a small JSON object that carries the location name, latitude and longitude.
- **The date pattern.**
  - Instants are milliseconds since 1970-01-01T00:00:00Z.
  - Formatting is a proleptic Gregorian calendar conversion.
  - The parser accepts exactly the texts the formatter writes. Formatting then parsing returns the
    instant. Parsing then formatting returns the text.
- **The parcel transport.**
  - `writeToParcel` appends the fields in constructor order. Each optional field is preceded by a
    presence flag.
  - `setDataPosition(0)` rewinds the parcel.
  - `CREATOR.createFromParcel` reads the fields back in the same order.
  - Reading back what was written returns the same notification, absent date and coordinates
    included. Only an encoding decodes, no encoding is a prefix of another, and a truncated
    parcel does not decode.
- **The test's payload builder.** `createPushNotificationPayload` fills a Bundle through seven
  `putString` calls. A null value leaves the key unset.
- **The test scenarios.** Six of the eleven test methods are stated as methods whose
  postconditions are what the tests assert: the three parse tests, the two parcel tests and the
  unparsable-date test. The five tests that each leave out one required argument (lines 207-241
  and 253-260) share one shape. They are stated together as the lemma `ParseIncompletePayload`,
  which covers any payload missing any of the five.

Modules, one per file:

| file | module | contents |
|---|---|---|
| `wrappers.dfy` | `Wrappers` | `Option` with failure propagation |
| `sequences.dfy` | `Sequences` | regrouping of concatenations |
| `digits.dfy` | `Digits` | decimal digits, `Decimal` and `ValueOf`, and their inverse laws |
| `calendar.dfy` | `Calendar` | broken-down UTC time and its conversion to and from instants |
| `datefmt.dfy` | `DateFormat` | the timestamp pattern, `FormatDate` and `ParseDate` |
| `json.dfy` | `Json` | the JSON used in `s` and `l`: values, rendering, parsing, lookup |
| `notification.dfy` | `ParcelableNotification` | the notification value, URL normalisation, `Parse` |
| `transport.dfy` | `Transport` | the parcel as a class, `WriteToParcel`, `CreateFromParcel` and the codec laws |
| `payload.dfy` | `ParcelableNotificationTest` | the Bundle class, the payload builder and the scenarios |

## Model

All source paths below are relative to the repository root. The only source file is
`guardian/src/test/java/com/auth0/android/guardian/sdk/ParcelableNotificationTest.java`.

| member | source | states |
|---|---|---|
| ParcelableNotification.Parse | guardian/src/test/java/com/auth0/android/guardian/sdk/ParcelableNotificationTest.java:85-100 | models `parse` (called at lines 85, 109, 133, 157, 211-257): a notification holds all five required keys, an absolute URL and a date, and its latitude and longitude are both present or both absent; which payloads decode and what they decode to is stated by ParseSucceedsExactly, MissingRequiredKey and ParsedFields |
| ParcelableNotification.NormalizeUrl | guardian/src/test/java/com/auth0/android/guardian/sdk/ParcelableNotificationTest.java:89 | models how the `sh` value becomes the URL (asserted at lines 89, 113 and 137): any URL it gives is an absolute http or https URL, and an empty host gives none; the three cases are stated by NormalizeUrlCases |
| ParcelableNotification.NormalizeUrlCases | guardian/src/test/java/com/auth0/android/guardian/sdk/ParcelableNotificationTest.java:127-137 | a normalised URL is absolute; an http or https URL is kept unchanged; a bare host becomes https + host + "/"; there is no URL exactly when the host is empty or only a scheme |
| ParcelableNotification.DecodeSource | guardian/src/test/java/com/auth0/android/guardian/sdk/ParcelableNotificationTest.java:91-94 | models how `s` becomes the four device fields: no `s` gives none of them, and any field it gives comes from a JSON object; DecodeSourceText states that each path reaches its field |
| ParcelableNotification.DecodeLocation | guardian/src/test/java/com/auth0/android/guardian/sdk/ParcelableNotificationTest.java:97-99 | models how `l` becomes location, latitude and longitude: no `l` gives none of them; the coordinates are both present or both absent, and each is a decimal numeral; DecodeLocationText states that each path reaches its field |
| ParcelableNotification.NormalizeUrlIdempotent | guardian/src/test/java/com/auth0/android/guardian/sdk/ParcelableNotificationTest.java:79-89 | normalising a normalised URL changes nothing, so http and https URLs survive as given |
| ParcelableNotification.ParseSucceedsExactly | guardian/src/test/java/com/auth0/android/guardian/sdk/ParcelableNotificationTest.java:207-260 | parse yields a notification if and only if all five required keys are present, the host gives a URL and the date parses |
| ParcelableNotification.MissingRequiredKey | guardian/src/test/java/com/auth0/android/guardian/sdk/ParcelableNotificationTest.java:207-241 | leaving out any one of sh, dai, txtkn, d or c leaves no notification, whatever else the payload holds |
| ParcelableNotification.ParsedFields | guardian/src/test/java/com/auth0/android/guardian/sdk/ParcelableNotificationTest.java:91-100 | the URL is the normalised host; dai, txtkn and c are copied verbatim; the date is the instant whose wire form is d; browser, OS and location fields are what s and l hold; latitude and longitude are both present or both absent |
| ParcelableNotification.OptionalNeverBlocks | guardian/src/test/java/com/auth0/android/guardian/sdk/ParcelableNotificationTest.java:282-285 | changing or removing s or l never decides whether a payload decodes |
| ParcelableNotification.DigitRun | guardian/src/test/java/com/auth0/android/guardian/sdk/ParcelableNotificationTest.java:284-285 | the length of the run of digits at the head of a coordinate: all digits, and followed by a non-digit or the end |
| Json.Lookup | guardian/src/test/java/com/auth0/android/guardian/sdk/ParcelableNotificationTest.java:282-285 | a key has a value exactly when it is one of the object's keys, and the value is the one written last under that key |
| Json.LastWrittenUnique | guardian/src/test/java/com/auth0/android/guardian/sdk/ParcelableNotificationTest.java:282-285 | only one pair is the last written under a key, so the value Lookup returns is fixed by its contract |
| Json.ParseRendered | guardian/src/test/java/com/auth0/android/guardian/sdk/ParcelableNotificationTest.java:282-285 | reading a written well-formed value returns it and leaves exactly the text after it |
| Json.DecodeRendered | guardian/src/test/java/com/auth0/android/guardian/sdk/ParcelableNotificationTest.java:282-285 | decoding the text of a well-formed value returns the value |
| Digits.DecimalRoundTrip | guardian/src/test/java/com/auth0/android/guardian/sdk/ParcelableNotificationTest.java:277 | the year is written in decimal digits, without leading zeros, and reads back as itself |
| Digits.DecimalOfValue | guardian/src/test/java/com/auth0/android/guardian/sdk/ParcelableNotificationTest.java:277 | a digit string without leading zeros is the decimal writing of its value |
| Calendar.FindYear | guardian/src/test/java/com/auth0/android/guardian/sdk/ParcelableNotificationTest.java:277-278 | the year found for a day count is the one whose first day is at or before it and whose successor starts after it |
| Calendar.FromInstant | guardian/src/test/java/com/auth0/android/guardian/sdk/ParcelableNotificationTest.java:277-278 | an instant's UTC calendar fields are a valid date and time that converts back to the instant |
| Calendar.CivilRoundTrip | guardian/src/test/java/com/auth0/android/guardian/sdk/ParcelableNotificationTest.java:277-278 | every valid date and time from 1970 on is the UTC breakdown of its own instant |
| Calendar.YearStartMonotone | guardian/src/test/java/com/auth0/android/guardian/sdk/ParcelableNotificationTest.java:277-278 | year starts never decrease, and a later year starts strictly later |
| DateFormat.FormatDate | guardian/src/test/java/com/auth0/android/guardian/sdk/ParcelableNotificationTest.java:277-281 | models `simpleDateFormat.format(date)` in UTC: the text is the year's digits followed by -MM-ddTHH:mm:ss.SSSZ with every field at its width; DateRoundTrip and ParseDateExactly tie it to ParseDate |
| DateFormat.ParseDate | guardian/src/test/java/com/auth0/android/guardian/sdk/ParcelableNotificationTest.java:90 | models how `parse` reads `d` back into the date compared at line 90: only a text of the pattern's shape parses; ParseDateExactly states that a text parses to an instant exactly when it is that instant's formatted text |
| DateFormat.RenderThenParse | guardian/src/test/java/com/auth0/android/guardian/sdk/ParcelableNotificationTest.java:277-281 | the pattern's parser reads back every field the formatter writes |
| DateFormat.ParseThenRender | guardian/src/test/java/com/auth0/android/guardian/sdk/ParcelableNotificationTest.java:277-281 | the parser accepts only text the formatter would write for the fields it returns |
| DateFormat.DateRoundTrip | guardian/src/test/java/com/auth0/android/guardian/sdk/ParcelableNotificationTest.java:277-281 | formatting an instant in UTC and parsing the text yields the same instant, to the millisecond |
| DateFormat.ParseDateExactly | guardian/src/test/java/com/auth0/android/guardian/sdk/ParcelableNotificationTest.java:277-281 | a text parses to an instant if and only if it is that instant's formatted text |
| DateFormat.ParseDateExample | guardian/src/test/java/com/auth0/android/guardian/sdk/ParcelableNotificationTest.java:243-251 | 2016-01-01T00:00:00.000Z is 1451606400000 ms; "this date cannot be parsed" is no date |
| Transport.Encode | guardian/src/test/java/com/auth0/android/guardian/sdk/ParcelableNotificationTest.java:160 | models the values `writeToParcel` writes: the URL first and the challenge last, between 12 and 20 values depending on which optional fields are present; DecodeEncode and EncodePrefixFree relate it to Decode |
| Transport.Decode | guardian/src/test/java/com/auth0/android/guardian/sdk/ParcelableNotificationTest.java:162 | models the reads of `CREATOR.createFromParcel`: a notification takes at least 12 values; DecodeEncode, DecodeExact and TruncatedDoesNotDecode state what it accepts and returns |
| Transport.DecodeEncode | guardian/src/test/java/com/auth0/android/guardian/sdk/ParcelableNotificationTest.java:151-178 | reading back an encoded notification yields it, every field including absent ones, and consumes nothing after it |
| Transport.DecodeExact | guardian/src/test/java/com/auth0/android/guardian/sdk/ParcelableNotificationTest.java:159-162 | whatever decodes was the encoding of the notification it decodes to |
| Transport.EncodePrefixFree | guardian/src/test/java/com/auth0/android/guardian/sdk/ParcelableNotificationTest.java:159-162 | two encodings of which one starts the other are the same notification |
| Transport.DecodedPrefix | guardian/src/test/java/com/auth0/android/guardian/sdk/ParcelableNotificationTest.java:159-162 | a prefix of an encoding that decodes is the whole encoding, with nothing left over |
| Transport.TruncatedDoesNotDecode | guardian/src/test/java/com/auth0/android/guardian/sdk/ParcelableNotificationTest.java:159-162 | a parcel cut short anywhere inside an encoding does not decode |
| Transport.Parcel.Obtain | guardian/src/test/java/com/auth0/android/guardian/sdk/ParcelableNotificationTest.java:159 | a new parcel is empty with its position at 0 |
| Transport.Parcel.Write | guardian/src/test/java/com/auth0/android/guardian/sdk/ParcelableNotificationTest.java:160 | a write appends one value and moves the position to the end |
| Transport.Parcel.SetDataPosition | guardian/src/test/java/com/auth0/android/guardian/sdk/ParcelableNotificationTest.java:161 | the position becomes the one given; the data is unchanged |
| Transport.Parcel.ReadString | guardian/src/test/java/com/auth0/android/guardian/sdk/ParcelableNotificationTest.java:162 | reads a string at the position exactly when one is there, and advances past it; a failed read leaves the position where it was |
| Transport.Parcel.ReadFlag | guardian/src/test/java/com/auth0/android/guardian/sdk/ParcelableNotificationTest.java:162 | reads a presence flag at the position exactly when one is there, and advances past it; a failed read leaves the position where it was |
| Transport.Parcel.ReadLong | guardian/src/test/java/com/auth0/android/guardian/sdk/ParcelableNotificationTest.java:162 | reads a non-negative long at the position exactly when one is there, and advances past it; a failed read leaves the position where it was |
| Transport.Parcel.ReadDouble | guardian/src/test/java/com/auth0/android/guardian/sdk/ParcelableNotificationTest.java:162 | reads a coordinate at the position exactly when one is there, and advances past it; a failed read leaves the position where it was |
| Transport.WriteToParcel | guardian/src/test/java/com/auth0/android/guardian/sdk/ParcelableNotificationTest.java:160 | the parcel's data becomes its old data followed by the notification's encoding |
| Transport.CreateFromParcel | guardian/src/test/java/com/auth0/android/guardian/sdk/ParcelableNotificationTest.java:162 | a notification is read exactly when the unread data decodes, and the position moves to just after it |
| Transport.ParcelRoundTrip | guardian/src/test/java/com/auth0/android/guardian/sdk/ParcelableNotificationTest.java:186-189 | obtain, write, rewind to 0 and read returns the same notification |
| ParcelableNotificationTest.Bundle.constructor | guardian/src/test/java/com/auth0/android/guardian/sdk/ParcelableNotificationTest.java:280 | a new Bundle holds no extras |
| ParcelableNotificationTest.Bundle.PutString | guardian/src/test/java/com/auth0/android/guardian/sdk/ParcelableNotificationTest.java:281-289 | the key is set to the value, or unset for null, and nothing else changes |
| ParcelableNotificationTest.PutOnlyTouchesKey | guardian/src/test/java/com/auth0/android/guardian/sdk/ParcelableNotificationTest.java:281-289 | after putString the key reads back the value, and every other key reads as before |
| ParcelableNotificationTest.SourceTextIsJson | guardian/src/test/java/com/auth0/android/guardian/sdk/ParcelableNotificationTest.java:282-283 | the hand-built s text is the JSON rendering of {"b":{"v","n"},"os":{"v","n"}} |
| ParcelableNotificationTest.LocationTextIsJson | guardian/src/test/java/com/auth0/android/guardian/sdk/ParcelableNotificationTest.java:284-285 | the hand-built l text is the JSON rendering of {"n","lat","long"} |
| ParcelableNotificationTest.DecodeSourceText | guardian/src/test/java/com/auth0/android/guardian/sdk/ParcelableNotificationTest.java:91-94 | s.b.n, s.b.v, s.os.n and s.os.v reach browserName, browserVersion, osName and osVersion |
| ParcelableNotificationTest.DecodeLocationText | guardian/src/test/java/com/auth0/android/guardian/sdk/ParcelableNotificationTest.java:97-99 | l.n, l.lat and l.long reach location, latitude and longitude |
| ParcelableNotificationTest.CreatePushNotificationPayload | guardian/src/test/java/com/auth0/android/guardian/sdk/ParcelableNotificationTest.java:270-292 | returns a new Bundle holding exactly the seven extras put in order |
| ParcelableNotificationTest.PayloadExtras | guardian/src/test/java/com/auth0/android/guardian/sdk/ParcelableNotificationTest.java:280-289 | each argument is under its own key, absent when null; the date is its UTC wire text; no other key is set |
| ParcelableNotificationTest.HostnamesNormalize | guardian/src/test/java/com/auth0/android/guardian/sdk/ParcelableNotificationTest.java:54-56 | example.com gives https://example.com/; the http and https forms are kept |
| ParcelableNotificationTest.ParseCompletePayload | guardian/src/test/java/com/auth0/android/guardian/sdk/ParcelableNotificationTest.java:127-149 | a complete payload decodes to the normalised host, the same instant and every device, location and id field put in |
| ParcelableNotificationTest.ParseIncompletePayload | guardian/src/test/java/com/auth0/android/guardian/sdk/ParcelableNotificationTest.java:207-260 | a payload built without host, device id, token, date or challenge decodes to nothing |
| ParcelableNotificationTest.ParseUnparsableDate | guardian/src/test/java/com/auth0/android/guardian/sdk/ParcelableNotificationTest.java:243-251 | overwriting d with the text "this date cannot be parsed" leaves no notification, for every host; that any text which is no formatted instant does the same follows from ParseSucceedsExactly and ParseDateExactly |
| ParcelableNotificationTest.ShouldHaveCorrectDataWithHttpHostname | guardian/src/test/java/com/auth0/android/guardian/sdk/ParcelableNotificationTest.java:79-101 | an http host decodes with its URL unchanged and every other field as put in |
| ParcelableNotificationTest.ShouldHaveCorrectDataWithHttpsHostname | guardian/src/test/java/com/auth0/android/guardian/sdk/ParcelableNotificationTest.java:103-125 | an https host decodes with its URL unchanged and every other field as put in |
| ParcelableNotificationTest.ShouldHaveCorrectDataAfterParse | guardian/src/test/java/com/auth0/android/guardian/sdk/ParcelableNotificationTest.java:127-149 | a bare host decodes to https://example.com/ with every other field as put in |
| ParcelableNotificationTest.ShouldHaveCorrectDataAfterParcel | guardian/src/test/java/com/auth0/android/guardian/sdk/ParcelableNotificationTest.java:151-178 | the decoded notification comes back from the parcel with every field unchanged |
| ParcelableNotificationTest.ShouldHaveCorrectDataAfterParcelWithNulls | guardian/src/test/java/com/auth0/android/guardian/sdk/ParcelableNotificationTest.java:180-205 | a notification without date, latitude and longitude comes back from the parcel with all three still absent |
| ParcelableNotificationTest.ShouldReturnNullIfDateCannotBeParsed | guardian/src/test/java/com/auth0/android/guardian/sdk/ParcelableNotificationTest.java:243-251 | a payload whose d is "this date cannot be parsed" decodes to nothing |

## Left out

- The implementation of `ParcelableNotification` is not part of this model. The model states the
  contract the test asserts, with the behaviour the test leaves open chosen as described below.
- `SimpleDateFormat` leniency is not modelled. The parser is strict:
  - out-of-range fields do not roll over;
  - numbers are not padded differently;
  - nothing may trail the text.
- Julian dates before 1582 are not modelled.
- Instants before 1970 are not modelled. `new Date()` becomes an arbitrary non-negative millisecond
  instant. A `d` that names a date before 1970 does not parse, so such a payload decodes to no
  notification, where Java would read a negative millisecond count.
- 64-bit bounds are not modelled for `long` dates. Instants are unbounded naturals.
- Latitude and longitude are not floating-point values. They are carried as the decimal numerals
  Java prints for them ("56.87", "34.34") and are compared as text, not as doubles.
- Only a subset of JSON is parsed for `s` and `l`: objects, strings without escapes, and numbers.
  Escapes, `null`, booleans and arrays are outside it.
  - When a key appears twice, the later one wins.
  - A wrong-typed field, or a coordinate that is not a decimal numeral, makes the whole object count
    as absent.
  - None of this is asserted by the test.
- ParcelableNotification.DecodeLocation: a latitude without a longitude, or the reverse, makes the
  whole location absent. Latitude and longitude are meant to be present together, and the test only
  builds payloads that have both.
- A coordinate printed as `null` (a null Double passed to the seven-argument builder) makes the
  location absent. The test never builds such a payload.
- URL parsing by okhttp `HttpUrl` is not modelled beyond the scheme-prefix rule the test asserts. An
  empty host, or a bare `http://` or `https://`, is the one invalid case modelled. Canonicalisation
  of case, ports, paths and percent-encoding is not modelled. In particular, a scheme-prefixed URL
  without a path is kept without the trailing `/` that `HttpUrl` would print, while a bare host gets
  one.
- The byte layout of `android.os.Parcel` is not modelled. The parcel is a sequence of typed values
  with a position.
  - Transport.Parcel.Write: a write always appends and moves the position to the end. Android's
    overwrite of data past the position is not modelled, and the test never writes after a rewind.
  - A read of the wrong kind, or past the end, yields nothing rather than Android's default value.
- The `flags` argument of `writeToParcel` is ignored, as it is for this type.
- The Mockito mocks `CurrentDevice` and `PrivateKey` are left out. They take part in no assertion.
- Robolectric, the test runner and `@Config` are left out.
- `Bundle.putString(key, null)` is modelled as removing the key, because `getString` cannot tell an
  unset key from a null value.
