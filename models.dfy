/** The record types of models/models.go, the key names their struct tags give them in
    JSON and in BSON, and the hexadecimal text form of an ObjectID that the routes and
    the JSON encoding use. */
module Models {
  import opened Wrappers

  type Byte = x: int | 0 <= x < 256

  /** A document identity: twelve bytes (primitive.ObjectID). */
  type ObjectId = s: seq<Byte> | |s| == 12 witness [0, 0, 0, 0, 0, 0, 0, 0, 0, 0, 0, 0]

  /** The zero ObjectID, which `omitempty` leaves out of an encoding. */
  const NilObjectId: ObjectId := [0, 0, 0, 0, 0, 0, 0, 0, 0, 0, 0, 0]

  /** Unix seconds of Go's zero time.Time (January 1, year 1, UTC). */
  const ZeroTime: int := -62135596800

  // ---------------------------------------------------------------------------
  // Hexadecimal text of an ObjectID (ObjectID.Hex, ObjectIDFromHex, hex.DecodeString)
  // ---------------------------------------------------------------------------

  const HexAlphabet: string := "0123456789abcdef"

  predicate IsHexChar(c: char) {
    '0' <= c <= '9' || 'a' <= c <= 'f' || 'A' <= c <= 'F'
  }

  predicate AllHex(s: string) {
    forall i :: 0 <= i < |s| ==> IsHexChar(s[i])
  }

  /** The value of one hexadecimal digit; either case is accepted. */
  function HexValue(c: char): (v: Option<nat>)
    ensures v.Some? <==> IsHexChar(c)
    ensures v.Some? ==> v.value < 16
  {
    if '0' <= c <= '9' then Some(c as int - '0' as int)
    else if 'a' <= c <= 'f' then Some(c as int - 'a' as int + 10)
    else if 'A' <= c <= 'F' then Some(c as int - 'A' as int + 10)
    else None
  }

  /** The digit a hexadecimal character stands for, written in lower case. */
  function LowerHexChar(c: char): char {
    if 'A' <= c <= 'F' then (c as int - 'A' as int + 'a' as int) as char else c
  }

  function LowerHex(s: string): (r: string)
    ensures |r| == |s|
  {
    if s == [] then [] else [LowerHexChar(s[0])] + LowerHex(s[1..])
  }

  function ByteHex(b: Byte): string {
    [HexAlphabet[b / 16], HexAlphabet[b % 16]]
  }

  /** Lower-case hexadecimal text of a byte string, two digits per byte. */
  function EncodeHex(bs: seq<Byte>): (s: string)
    ensures |s| == 2 * |bs|
  {
    if bs == [] then [] else ByteHex(bs[0]) + EncodeHex(bs[1..])
  }

  /** hex.DecodeString: fails on an odd length or on any character that is not a digit. */
  function DecodeHex(s: string): (r: Option<seq<Byte>>)
    ensures r.Some? ==> 2 * |r.value| == |s|
  {
    if |s| == 0 then Some([])
    else if |s| == 1 then None
    else
      match (HexValue(s[0]), HexValue(s[1]), DecodeHex(s[2..]))
      case (Some(hi), Some(lo), Some(rest)) => Some([hi * 16 + lo] + rest)
      case _ => None
  }

  /** ObjectID.Hex: 24 lower-case hexadecimal digits. */
  function ObjectIdHex(id: ObjectId): (s: string)
    ensures |s| == 24 && AllHex(s)
  {
    EncodeHexIsHex(id);
    EncodeHex(id)
  }

  /** primitive.ObjectIDFromHex: exactly 24 characters, all of them hexadecimal digits. */
  function ObjectIdFromHex(s: string): (r: Option<ObjectId>)
  {
    if |s| != 24 then None
    else
      match DecodeHex(s)
      case Some(bs) => Some(bs)
      case None => None
  }

  /** ObjectID.String, which wraps the hexadecimal digits in `ObjectID("…")`; that
      text is never itself an acceptable hexadecimal ObjectID. */
  function ObjectIdString(id: ObjectId): (s: string)
    ensures |s| == 36
    ensures s[10..34] == ObjectIdHex(id)
    ensures ObjectIdFromHex(s) == None
  {
    "ObjectID(\"" + ObjectIdHex(id) + "\")"
  }

  lemma HexAlphabetValue(d: nat)
    requires d < 16
    ensures HexValue(HexAlphabet[d]) == Some(d)
  {
  }

  lemma {:induction false} EncodeHexIsHex(bs: seq<Byte>)
    ensures AllHex(EncodeHex(bs))
  {
    if bs != [] {
      EncodeHexIsHex(bs[1..]);
      assert EncodeHex(bs) == ByteHex(bs[0]) + EncodeHex(bs[1..]);
    }
  }

  /** Decoding the hexadecimal text of a byte string gives that byte string back. */
  lemma {:induction false} DecodeEncodeHex(bs: seq<Byte>)
    ensures DecodeHex(EncodeHex(bs)) == Some(bs)
  {
    if bs != [] {
      var s := EncodeHex(bs);
      assert s == ByteHex(bs[0]) + EncodeHex(bs[1..]);
      assert s[2..] == EncodeHex(bs[1..]);
      HexAlphabetValue(bs[0] / 16);
      HexAlphabetValue(bs[0] % 16);
      DecodeEncodeHex(bs[1..]);
      assert [bs[0]] + bs[1..] == bs;
    }
  }

  /** hex.DecodeString accepts exactly the even-length strings of hexadecimal digits. */
  lemma {:induction false} DecodeHexAccepts(s: string)
    ensures DecodeHex(s).Some? <==> |s| % 2 == 0 && AllHex(s)
  {
    if |s| >= 2 {
      DecodeHexAccepts(s[2..]);
      if AllHex(s) {
        assert AllHex(s[2..]) by {
          forall i | 0 <= i < |s[2..]| ensures IsHexChar(s[2..][i]) {
            assert s[2..][i] == s[i + 2];
          }
        }
      }
      if IsHexChar(s[0]) && IsHexChar(s[1]) && AllHex(s[2..]) {
        forall i | 0 <= i < |s| ensures IsHexChar(s[i]) {
          if i >= 2 { assert s[i] == s[2..][i - 2]; }
        }
      }
    } else if |s| == 1 {
      assert !(|s| % 2 == 0);
    }
  }

  lemma LowerHexCharDigit(c: char)
    requires IsHexChar(c)
    ensures HexAlphabet[HexValue(c).value] == LowerHexChar(c)
  {
  }

  lemma ByteHexOfDigits(c0: char, c1: char)
    requires IsHexChar(c0) && IsHexChar(c1)
    ensures HexValue(c0).value * 16 + HexValue(c1).value < 256
    ensures ByteHex(HexValue(c0).value * 16 + HexValue(c1).value) == [LowerHexChar(c0), LowerHexChar(c1)]
  {
    var hi, lo := HexValue(c0).value, HexValue(c1).value;
    assert (hi * 16 + lo) / 16 == hi && (hi * 16 + lo) % 16 == lo;
    LowerHexCharDigit(c0);
    LowerHexCharDigit(c1);
  }

  /** Printing what was decoded gives the input back, with its letters in lower case. */
  lemma {:induction false} EncodeDecodeHex(s: string)
    requires DecodeHex(s).Some?
    ensures EncodeHex(DecodeHex(s).value) == LowerHex(s)
  {
    if |s| >= 2 {
      var bs := DecodeHex(s).value;
      var rest := DecodeHex(s[2..]).value;
      ByteHexOfDigits(s[0], s[1]);
      assert bs == [HexValue(s[0]).value * 16 + HexValue(s[1]).value] + rest;
      assert bs[1..] == rest;
      EncodeDecodeHex(s[2..]);
      assert LowerHex(s[1..]) == [LowerHexChar(s[1])] + LowerHex(s[2..]) by {
        assert s[1..][1..] == s[2..];
      }
    }
  }

  /** The ObjectID printed by ObjectID.Hex is read back unchanged by ObjectIDFromHex. */
  lemma ObjectIdHexRoundTrip(id: ObjectId)
    ensures ObjectIdFromHex(ObjectIdHex(id)) == Some(id)
  {
    DecodeEncodeHex(id);
  }

  /** ObjectIDFromHex accepts a string iff it has exactly 24 characters, all hexadecimal
      digits, and the identity it yields prints as that string in lower case. */
  lemma ObjectIdFromHexAccepts(s: string)
    ensures ObjectIdFromHex(s).Some? <==> |s| == 24 && AllHex(s)
    ensures ObjectIdFromHex(s).Some? ==> ObjectIdHex(ObjectIdFromHex(s).value) == LowerHex(s)
  {
    DecodeHexAccepts(s);
    if ObjectIdFromHex(s).Some? {
      EncodeDecodeHex(s);
    }
  }

  // ---------------------------------------------------------------------------
  // Records
  // ---------------------------------------------------------------------------

  /** models.Holding. Quantity and total cost are float64 in the source; they are carried
      here as reals and no arithmetic is done on them. */
  datatype Holding = Holding(id: ObjectId, ticker: string, quantity: real, totalCost: real, account: string)

  /** models.User. The password field holds a bcrypt hash; the date is Unix seconds. */
  datatype User = User(
    id: ObjectId,
    firstName: string,
    lastName: string,
    email: string,
    password: string,
    timezone: string,
    profileImageUrl: string,
    date: int)

  /** models.RegistrationRequest: the registration payload, with its confirmation password. */
  datatype RegistrationRequest = RegistrationRequest(
    firstName: string,
    lastName: string,
    email: string,
    password: string,
    password2: string,
    timezone: string,
    profileImageUrl: string)

  // ---------------------------------------------------------------------------
  // JSON (the `json:` struct tags and encoding/json)
  // ---------------------------------------------------------------------------

  datatype Json =
    | JNull
    | JBool(b: bool)
    | JNumber(n: real)
    | JString(s: string)
    | JArray(items: seq<Json>)
    | JObject(members: map<string, Json>)

  /** The JSON keys of a Holding apart from its identity. */
  const HoldingFieldKeys: set<string> := {"ticker", "quantity", "totalCost", "account"}

  /** The JSON object of a Holding: its ID goes under `_id` as hexadecimal text. `omitempty`
      never drops a fixed-size array, so even the zero ObjectID is written. */
  function HoldingToJson(h: Holding): (m: map<string, Json>)
    ensures m.Keys == HoldingFieldKeys + {"_id"}
    ensures m["_id"] == JString(ObjectIdHex(h.id))
  {
    map["_id" := JString(ObjectIdHex(h.id)), "ticker" := JString(h.ticker), "quantity" := JNumber(h.quantity),
        "totalCost" := JNumber(h.totalCost), "account" := JString(h.account)]
  }

  /** A string field as json.Unmarshal fills it: absent or null leaves the zero value. */
  function JsonStringField(m: map<string, Json>, key: string): Option<string> {
    if key !in m then Some("")
    else
      match m[key]
      case JNull => Some("")
      case JString(s) => Some(s)
      case _ => None
  }

  /** A float64 field as json.Unmarshal fills it. */
  function JsonNumberField(m: map<string, Json>, key: string): Option<real> {
    if key !in m then Some(0.0)
    else
      match m[key]
      case JNull => Some(0.0)
      case JNumber(n) => Some(n)
      case _ => None
  }

  /** The text ObjectID.UnmarshalJSON reads: a string, or the extended-JSON object
      `{"$oid": string}`. */
  function JsonObjectIdText(v: Json): Option<string> {
    match v
    case JString(s) => Some(s)
    case JObject(o) => if "$oid" in o && o["$oid"].JString? then Some(o["$oid"].s) else None
    case _ => None
  }

  /** An ObjectID field as ObjectID.UnmarshalJSON fills it: null and the empty text give
      the zero ObjectID, any other text must be 24 hexadecimal digits. */
  function JsonObjectIdField(m: map<string, Json>, key: string): (r: Option<ObjectId>)
    ensures key in m && JsonObjectIdText(m[key]).Some? && JsonObjectIdText(m[key]).value != "" ==>
              r == ObjectIdFromHex(JsonObjectIdText(m[key]).value)
    ensures key in m && !m[key].JNull? && JsonObjectIdText(m[key]).None? ==> r.None?
  {
    if key !in m then Some(NilObjectId)
    else if m[key].JNull? then Some(NilObjectId)
    else
      match JsonObjectIdText(m[key])
      case None => None
      case Some(s) => if s == "" then Some(NilObjectId) else ObjectIdFromHex(s)
  }

  /** json.Unmarshal of an object into a zero Holding; keys that name no field are ignored. */
  function HoldingFromJson(m: map<string, Json>): Option<Holding> {
    match (JsonObjectIdField(m, "_id"), JsonStringField(m, "ticker"), JsonNumberField(m, "quantity"),
           JsonNumberField(m, "totalCost"), JsonStringField(m, "account"))
    case (Some(id), Some(t), Some(q), Some(c), Some(a)) => Some(Holding(id, t, q, c, a))
    case _ => None
  }

  /** A Holding written as JSON and read back is the same Holding. */
  lemma HoldingJsonRoundTrip(h: Holding)
    ensures HoldingFromJson(HoldingToJson(h)) == Some(h)
  {
    ObjectIdHexRoundTrip(h.id);
    assert ObjectIdHex(h.id) != "";
  }

  /** A `null` request body, bound as the empty object, decodes to the all-zero Holding and
      the zero User, as json.Unmarshal leaves them. */
  lemma EmptyObjectDecodesToZero(parseTime: string -> Option<int>)
    ensures HoldingFromJson(map[]) == Some(Holding(NilObjectId, "", 0.0, 0.0, ""))
    ensures UserFromJson(map[], parseTime) == Some(User(NilObjectId, "", "", "", "", "", "", ZeroTime))
  {
  }

  /** A JSON object whose keys are all Holding fields other than the identity decodes, if
      at all, to a Holding with the zero ObjectID. */
  lemma FieldKeysDecodeWithoutId(m: map<string, Json>)
    requires m.Keys <= HoldingFieldKeys
    ensures HoldingFromJson(m).Some? ==> HoldingFromJson(m).value.id == NilObjectId
    ensures HoldingFromJson(m).Some? <==>
              (forall k :: k in m && k in {"ticker", "account"} ==> m[k].JNull? || m[k].JString?) &&
              (forall k :: k in m && k in {"quantity", "totalCost"} ==> m[k].JNull? || m[k].JNumber?)
  {
    assert "_id" !in m;
    if HoldingFromJson(m).None? {
      if JsonStringField(m, "ticker").None? { assert "ticker" in m; }
      else if JsonNumberField(m, "quantity").None? { assert "quantity" in m; }
      else if JsonNumberField(m, "totalCost").None? { assert "totalCost" in m; }
      else { assert "account" in m; }
    }
  }

  /** A time.Time field as json.Unmarshal fills it: absent or null leaves the zero time, a
      string is read as RFC 3339 text by `parseTime` (the time package is outside the model). */
  function JsonTimeField(m: map<string, Json>, key: string, parseTime: string -> Option<int>): Option<int> {
    if key !in m then Some(ZeroTime)
    else
      match m[key]
      case JNull => Some(ZeroTime)
      case JString(s) => parseTime(s)
      case _ => None
  }

  /** The JSON object of a User: the ID under `id` (always written, like any array), the
      date as RFC 3339 text by `formatTime`, and no password: its field is tagged `json:"-"`. */
  function UserToJson(u: User, formatTime: int -> string): (m: map<string, Json>)
    ensures m.Keys == {"id", "firstName", "lastName", "email", "timezone", "profileImageUrl", "date"}
    ensures m["id"] == JString(ObjectIdHex(u.id)) && m["email"] == JString(u.email)
  {
    map["id" := JString(ObjectIdHex(u.id)), "firstName" := JString(u.firstName), "lastName" := JString(u.lastName),
        "email" := JString(u.email), "timezone" := JString(u.timezone),
        "profileImageUrl" := JString(u.profileImageUrl), "date" := JString(formatTime(u.date))]
  }

  /** json.Unmarshal of an object into a zero User, as written: the `json:"-"` tag makes
      the decoder skip the password like any unknown key, so it stays empty. */
  function UserFromJson(m: map<string, Json>, parseTime: string -> Option<int>): (r: Option<User>)
    ensures r.Some? ==> r.value.password == ""
  {
    match (JsonObjectIdField(m, "id"), JsonStringField(m, "firstName"), JsonStringField(m, "lastName"),
           JsonStringField(m, "email"), JsonStringField(m, "timezone"),
           JsonStringField(m, "profileImageUrl"), JsonTimeField(m, "date", parseTime))
    case (Some(id), Some(f), Some(l), Some(e), Some(tz), Some(img), Some(t)) =>
      Some(User(id, f, l, e, "", tz, img, t))
    case _ => None
  }

  /** A `password` key makes no difference to the User decoded from a request body: whatever
      password a client sends, the User it binds to has an empty one. */
  lemma UserFromJsonIgnoresPassword(m: map<string, Json>, parseTime: string -> Option<int>, password: string)
    ensures UserFromJson(m["password" := JString(password)], parseTime) == UserFromJson(m - {"password"}, parseTime)
    ensures UserFromJson(m["password" := JString(password)], parseTime).Some? ==>
              UserFromJson(m["password" := JString(password)], parseTime).value.password == ""
  {
    var with := m["password" := JString(password)];
    var without := m - {"password"};
    assert forall k :: k != "password" ==> (k in with <==> k in without);
    assert forall k :: k != "password" && k in with ==> with[k] == without[k];
  }

  /** The decoding of a user-update body the update handler evidently intends: the User
      fields as json.Unmarshal reads them, and the password from the body's `password` key. */
  function UserUpdateFromJson(m: map<string, Json>, parseTime: string -> Option<int>): (r: Option<User>)
    ensures r.Some? ==> UserFromJson(m, parseTime).Some? && JsonStringField(m, "password").Some?
    ensures r.Some? ==> r.value == UserFromJson(m, parseTime).value.(password := JsonStringField(m, "password").value)
  {
    match (UserFromJson(m, parseTime), JsonStringField(m, "password"))
    case (Some(u), Some(p)) => Some(u.(password := p))
    case _ => None
  }

  /** With the intended decoding, the password a client sends is the one bound, and every
      other field is the one the written decoding reads. */
  lemma UserUpdateKeepsPassword(m: map<string, Json>, parseTime: string -> Option<int>, password: string)
    requires "password" in m && m["password"] == JString(password)
    requires UserFromJson(m, parseTime).Some?
    ensures UserUpdateFromJson(m, parseTime).Some?
    ensures UserUpdateFromJson(m, parseTime).value.password == password
    ensures UserUpdateFromJson(m, parseTime).value.(password := "") == UserFromJson(m, parseTime).value
  {
  }

  /** A User written as JSON and read back loses only its password, given that the time
      text written is the time read. */
  lemma UserJsonRoundTrip(u: User, formatTime: int -> string, parseTime: string -> Option<int>)
    requires parseTime(formatTime(u.date)) == Some(u.date)
    ensures UserFromJson(UserToJson(u, formatTime), parseTime) == Some(u.(password := ""))
  {
    ObjectIdHexRoundTrip(u.id);
    assert ObjectIdHex(u.id) != "";
  }

  // ---------------------------------------------------------------------------
  // BSON (the `bson:` struct tags; a field without one is stored under its
  // lower-cased Go name)
  // ---------------------------------------------------------------------------

  datatype Bson =
    | BNull
    | BUndefined
    | BString(s: string)
    | BSymbol(sym: string)
    | BDouble(d: real)
    | BInt32(i32: int)
    | BInt64(i64: int)
    | BBool(b: bool)
    | BDateTime(t: int)
    | BObjectId(id: ObjectId)
    | BOther                    // arrays, embedded documents, binary data and the rest

  /** A stored document: field names to values, its identity under `_id`. */
  type Document = map<string, Bson>

  function HoldingToBson(h: Holding): (d: Document)
    ensures "_id" in d <==> h.id != NilObjectId
    ensures d.Keys - {"_id"} == HoldingFieldKeys
  {
    var fields := map["ticker" := BString(h.ticker), "quantity" := BDouble(h.quantity),
                      "totalCost" := BDouble(h.totalCost), "account" := BString(h.account)];
    if h.id == NilObjectId then fields else fields["_id" := BObjectId(h.id)]
  }

  /** The stored keys of a User: `_id` (left out when zero), the password hash under
      `password`, and ProfileImageURL, which has no bson tag, as `profileimageurl`. */
  function UserToBson(u: User): (d: Document)
    ensures "_id" in d <==> u.id != NilObjectId
    ensures "password" in d && d["password"] == BString(u.password)
    ensures "id" !in d && "profileImageUrl" !in d
  {
    var fields := map["firstName" := BString(u.firstName), "lastName" := BString(u.lastName),
                      "email" := BString(u.email), "password" := BString(u.password),
                      "timezone" := BString(u.timezone), "profileimageurl" := BString(u.profileImageUrl),
                      "date" := BDateTime(u.date)];
    if u.id == NilObjectId then fields else fields["_id" := BObjectId(u.id)]
  }

  /** A string field as the driver's default string decoder fills it: a string or symbol as
      it is, an ObjectID as its hexadecimal text, null and undefined as the empty string. */
  function BsonStringField(d: Document, key: string): (r: Option<string>)
    ensures key in d && d[key].BObjectId? ==> r == Some(ObjectIdHex(d[key].id))
    ensures key in d && (d[key].BDouble? || d[key].BInt32? || d[key].BInt64? || d[key].BBool? || d[key].BDateTime?) ==> r.None?
  {
    if key !in d then Some("")
    else
      match d[key]
      case BNull => Some("")
      case BUndefined => Some("")
      case BString(s) => Some(s)
      case BSymbol(s) => Some(s)
      case BObjectId(id) => Some(ObjectIdHex(id))
      case _ => None
  }

  /** A float64 field as the driver's default float decoder fills it: a double as it is,
      an int32 or int64 converted, a boolean as 1 or 0, null and undefined as 0. */
  function BsonDoubleField(d: Document, key: string): (r: Option<real>)
    ensures key in d && (d[key].BInt32? || d[key].BInt64?) ==>
              r == Some((if d[key].BInt32? then d[key].i32 else d[key].i64) as real)
    ensures key in d && d[key].BBool? ==> r == Some(if d[key].b then 1.0 else 0.0)
    ensures key in d && (d[key].BString? || d[key].BObjectId? || d[key].BDateTime?) ==> r.None?
  {
    if key !in d then Some(0.0)
    else
      match d[key]
      case BNull => Some(0.0)
      case BUndefined => Some(0.0)
      case BDouble(x) => Some(x)
      case BInt32(i) => Some(i as real)
      case BInt64(i) => Some(i as real)
      case BBool(b) => Some(if b then 1.0 else 0.0)
      case _ => None
  }

  predicate IsAscii(s: string) {
    forall i :: 0 <= i < |s| ==> s[i] as int < 128
  }

  /** An ObjectID field as the driver's default decoder fills it: an ObjectID as it is; a
      string as ObjectIDFromHex reads it or, failing that, a string of exactly twelve
      bytes copied byte for byte; null and undefined as the zero ObjectID. */
  function BsonObjectIdField(d: Document, key: string): (r: Option<ObjectId>)
    ensures key in d && d[key].BString? && ObjectIdFromHex(d[key].s).Some? ==> r == ObjectIdFromHex(d[key].s)
    ensures key in d && d[key].BString? && ObjectIdFromHex(d[key].s).None? && |d[key].s| != 12 ==> r.None?
  {
    if key !in d then Some(NilObjectId)
    else
      match d[key]
      case BNull => Some(NilObjectId)
      case BUndefined => Some(NilObjectId)
      case BObjectId(id) => Some(id)
      case BString(s) =>
        if ObjectIdFromHex(s).Some? then ObjectIdFromHex(s)
        else if |s| == 12 && IsAscii(s) then Some(seq(12, i requires 0 <= i < 12 => s[i] as int))
        else None
      case _ => None
  }

  /** A time.Time field as the driver decodes it; only a BSON date, null and undefined
      are read here. */
  function BsonDateField(d: Document, key: string): Option<int> {
    if key !in d then Some(ZeroTime)
    else
      match d[key]
      case BNull => Some(ZeroTime)
      case BUndefined => Some(ZeroTime)
      case BDateTime(t) => Some(t)
      case _ => None
  }

  /** cursor.Decode into a Holding: fails when a known field holds a value of the wrong type. */
  function HoldingFromBson(d: Document): Option<Holding> {
    match (BsonObjectIdField(d, "_id"), BsonStringField(d, "ticker"), BsonDoubleField(d, "quantity"),
           BsonDoubleField(d, "totalCost"), BsonStringField(d, "account"))
    case (Some(id), Some(t), Some(q), Some(c), Some(a)) => Some(Holding(id, t, q, c, a))
    case _ => None
  }

  /** cursor.Decode into a User. */
  function UserFromBson(d: Document): Option<User> {
    match (BsonObjectIdField(d, "_id"), BsonStringField(d, "firstName"), BsonStringField(d, "lastName"),
           BsonStringField(d, "email"), BsonStringField(d, "password"), BsonStringField(d, "timezone"),
           BsonStringField(d, "profileimageurl"), BsonDateField(d, "date"))
    case (Some(id), Some(f), Some(l), Some(e), Some(p), Some(tz), Some(img), Some(t)) =>
      Some(User(id, f, l, e, p, tz, img, t))
    case _ => None
  }

  /** A Holding stored and decoded is the same Holding. */
  lemma HoldingBsonRoundTrip(h: Holding)
    ensures HoldingFromBson(HoldingToBson(h)) == Some(h)
  {
  }

  /** A User stored and decoded is the same User, password hash included. */
  lemma UserBsonRoundTrip(u: User)
    ensures UserFromBson(UserToBson(u)) == Some(u)
  {
  }
}
