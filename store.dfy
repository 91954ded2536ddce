/** The database access layer of config/db.go over an abstract document store: two
    collections (holdings and users), each a sequence of BSON documents in the order a
    cursor returns them, every document carrying a distinct ObjectID under `_id`.

    Every driver call can fail (connection loss, timeout, server error); which calls fail
    is an input of the model, given as `Some(message)` for a failing call and `None` for
    one that reaches the collection. */
module Store {
  import opened Wrappers
  import opened Models

  /** The `error` values the functions of config/db.go return. */
  datatype DbError =
    | InvalidHex               // primitive.ObjectIDFromHex rejected the id text
    | NoDocuments              // FindOne matched nothing
    | Undecodable              // the matched document does not decode into the record type
    | DuplicateKey             // InsertOne of an _id already in the collection
    | ImmutableId              // ReplaceOne whose replacement names a different _id
    | PresetId                 // AddHolding given a holding that already has an ID
    | NotFound(message: string) // GetUserByID's formatted errors
    | Driver(message: string)   // the driver call itself failed

  /** A regular expression as the driver sends it: `$regex` and `$options`. */
  datatype Regex = Regex(pattern: string, options: string)

  /** The query filters config/db.go builds. */
  datatype Filter =
    | Everything                              // bson.M{}
    | IdIs(id: ObjectId)                      // bson.M{"_id": oid}
    | FieldIs(key: string, value: string)     // bson.M{key: value}
    | FieldMatches(key: string, regex: Regex) // bson.M{key: bson.M{"$regex": …, "$options": …}}

  /** Result of DeleteOne. */
  datatype DeleteResult = DeleteResult(deletedCount: nat)

  /** Result of ReplaceOne. */
  datatype UpdateResult = UpdateResult(matchedCount: nat, modifiedCount: nat)

  /** Whether a document passes a filter. Regular-expression evaluation belongs to the
      database server and is the parameter `regexMatch`. */
  predicate Selects(f: Filter, d: Document, regexMatch: (Regex, string) -> bool) {
    match f
    case Everything => true
    case IdIs(id) => "_id" in d && d["_id"] == BObjectId(id)
    case FieldIs(k, v) => k in d && d[k] == BString(v)
    case FieldMatches(k, re) => k in d && d[k].BString? && regexMatch(re, d[k].s)
  }

  /** The documents a Find with filter `f` returns, in cursor order. */
  function Select(docs: seq<Document>, f: Filter, regexMatch: (Regex, string) -> bool): (r: seq<Document>)
    ensures |r| <= |docs|
    ensures forall d :: d in r <==> d in docs && Selects(f, d, regexMatch)
  {
    if docs == [] then []
    else (if Selects(f, docs[0], regexMatch) then [docs[0]] else []) + Select(docs[1..], f, regexMatch)
  }

  /** Selection is positional: a Find over a concatenation returns the selections of its
      parts, in order. */
  lemma {:induction false} SelectAppend(a: seq<Document>, b: seq<Document>, f: Filter, regexMatch: (Regex, string) -> bool)
    ensures Select(a + b, f, regexMatch) == Select(a, f, regexMatch) + Select(b, f, regexMatch)
  {
    if a != [] {
      assert (a + b)[0] == a[0];
      assert (a + b)[1..] == a[1..] + b;
      SelectAppend(a[1..], b, f, regexMatch);
    } else {
      assert a + b == b;
    }
  }

  /** A Find returns nothing exactly when no document passes the filter. */
  lemma SelectEmpty(docs: seq<Document>, f: Filter, regexMatch: (Regex, string) -> bool)
    ensures Select(docs, f, regexMatch) == [] <==> forall d :: d in docs ==> !Selects(f, d, regexMatch)
  {
    var r := Select(docs, f, regexMatch);
    if r != [] {
      assert r[0] in r;
    }
  }

  /** The head of a Find's cursor is the first stored document that passes the filter:
      none before it does. */
  lemma {:induction false} SelectHead(docs: seq<Document>, f: Filter, regexMatch: (Regex, string) -> bool) returns (i: nat)
    requires Select(docs, f, regexMatch) != []
    ensures i < |docs| && Select(docs, f, regexMatch)[0] == docs[i] && Selects(f, docs[i], regexMatch)
    ensures forall k :: 0 <= k < i ==> !Selects(f, docs[k], regexMatch)
  {
    if Selects(f, docs[0], regexMatch) {
      i := 0;
    } else {
      var j := SelectHead(docs[1..], f, regexMatch);
      i := j + 1;
      forall k | 0 <= k < i ensures !Selects(f, docs[k], regexMatch) {
        if k > 0 { assert docs[k] == docs[1..][k - 1]; }
      }
    }
  }

  /** Whichever stored document passes the filter with none before it passing is the head
      of the Find's cursor. */
  lemma SelectStartsAtFirstMatch(docs: seq<Document>, f: Filter, regexMatch: (Regex, string) -> bool)
    ensures forall i :: 0 <= i < |docs| && Selects(f, docs[i], regexMatch) &&
                        (forall k :: 0 <= k < i ==> !Selects(f, docs[k], regexMatch)) ==>
              Select(docs, f, regexMatch) != [] && Select(docs, f, regexMatch)[0] == docs[i]
  {
    forall i | 0 <= i < |docs| && Selects(f, docs[i], regexMatch) &&
               (forall k :: 0 <= k < i ==> !Selects(f, docs[k], regexMatch))
      ensures Select(docs, f, regexMatch) != [] && Select(docs, f, regexMatch)[0] == docs[i]
    {
      assert docs[i] in Select(docs, f, regexMatch);
      var j := SelectHead(docs, f, regexMatch);
      assert !(j < i) && !(i < j);
    }
  }

  /** Records that decode, in cursor order; the ones that do not are skipped. */
  function DecodeAll<T>(cursor: seq<Document>, decode: Document -> Option<T>): seq<T> {
    if cursor == [] then []
    else
      var init := DecodeAll(cursor[..|cursor| - 1], decode);
      match decode(cursor[|cursor| - 1])
      case Some(x) => init + [x]
      case None => init
  }

  /** Skipping is positional: the records of a concatenation are those of its parts, in order. */
  lemma {:induction false} DecodeAllAppend<T>(a: seq<Document>, b: seq<Document>, decode: Document -> Option<T>)
    ensures DecodeAll(a + b, decode) == DecodeAll(a, decode) + DecodeAll(b, decode)
  {
    if b != [] {
      assert (a + b)[..|a + b| - 1] == a + b[..|b| - 1];
      assert (a + b)[|a + b| - 1] == b[|b| - 1];
      DecodeAllAppend(a, b[..|b| - 1], decode);
    } else {
      assert a + b == a;
    }
  }

  /** A record is listed iff some document of the cursor decodes to it. */
  lemma {:induction false} DecodeAllMembers<T>(cursor: seq<Document>, decode: Document -> Option<T>, x: T)
    ensures x in DecodeAll(cursor, decode) <==> exists d :: d in cursor && decode(d) == Some(x)
  {
    if cursor != [] {
      var init := cursor[..|cursor| - 1];
      var last := cursor[|cursor| - 1];
      DecodeAllMembers(init, decode, x);
      assert cursor == init + [last];
      if exists d :: d in cursor && decode(d) == Some(x) {
        var d :| d in cursor && decode(d) == Some(x);
        if d != last { assert d in init; }
      }
    }
  }

  /** The listing is empty iff no document of the cursor decodes. */
  lemma DecodeAllEmpty<T>(cursor: seq<Document>, decode: Document -> Option<T>)
    ensures DecodeAll(cursor, decode) == [] <==> forall d :: d in cursor ==> decode(d).None?
  {
    if DecodeAll(cursor, decode) != [] {
      var x := DecodeAll(cursor, decode)[0];
      DecodeAllMembers(cursor, decode, x);
    } else {
      forall d | d in cursor ensures decode(d).None? {
        if decode(d).Some? {
          DecodeAllMembers(cursor, decode, decode(d).value);
        }
      }
    }
  }

  /** No record is lost unless its document fails to decode. */
  lemma {:induction false} DecodeAllLength<T>(cursor: seq<Document>, decode: Document -> Option<T>)
    ensures |DecodeAll(cursor, decode)| <= |cursor|
    ensures |DecodeAll(cursor, decode)| == |cursor| <==> forall i :: 0 <= i < |cursor| ==> decode(cursor[i]).Some?
  {
    if cursor != [] {
      var init := cursor[..|cursor| - 1];
      DecodeAllLength(init, decode);
      if forall i :: 0 <= i < |init| ==> decode(init[i]).Some? {
        assert forall i :: 0 <= i < |init| ==> init[i] == cursor[i];
      } else {
        var i :| 0 <= i < |init| && decode(init[i]).None?;
        assert cursor[i] == init[i];
      }
    }
  }

  // ---------------------------------------------------------------------------
  // Identities
  // ---------------------------------------------------------------------------

  predicate HasId(d: Document) {
    "_id" in d && d["_id"].BObjectId?
  }

  /** A stored user's email, as the filter `{"email": email}` compares it. */
  predicate HasEmail(d: Document, email: string) {
    "email" in d && d["email"] == BString(email)
  }

  predicate HasIdOf(d: Document, id: ObjectId) {
    "_id" in d && d["_id"] == BObjectId(id)
  }

  /** The collection invariant: every document has an ObjectID `_id`, and no two share one. */
  ghost predicate UniqueIds(docs: seq<Document>) {
    (forall i :: 0 <= i < |docs| ==> HasId(docs[i])) &&
    (forall i, j :: 0 <= i < j < |docs| ==> docs[i]["_id"] != docs[j]["_id"])
  }

  /** Where FindOne by `_id` stops: the first document with that identity. */
  function FindIndex(docs: seq<Document>, id: ObjectId): (r: Option<nat>)
    ensures r.Some? ==> r.value < |docs| && HasIdOf(docs[r.value], id)
    ensures r.Some? ==> forall k :: 0 <= k < r.value ==> !HasIdOf(docs[k], id)
    ensures r.None? ==> forall k :: 0 <= k < |docs| ==> !HasIdOf(docs[k], id)
  {
    if docs == [] then None
    else if HasIdOf(docs[0], id) then Some(0)
    else
      match FindIndex(docs[1..], id)
      case Some(i) => Some(i + 1)
      case None => None
  }

  /** The document stored under `id`, if any. */
  function Lookup(docs: seq<Document>, id: ObjectId): Option<Document> {
    match FindIndex(docs, id)
    case Some(i) => Some(docs[i])
    case None => None
  }

  /** DeleteOne by `_id`: the first document with that identity leaves the collection. */
  function DeleteOne(docs: seq<Document>, id: ObjectId): seq<Document> {
    match FindIndex(docs, id)
    case Some(i) => docs[..i] + docs[i + 1..]
    case None => docs
  }

  /** ReplaceOne by `_id`: the matched document is replaced whole, in its place. */
  function ReplaceOne(docs: seq<Document>, id: ObjectId, replacement: Document): seq<Document> {
    match FindIndex(docs, id)
    case Some(i) => docs[i := replacement]
    case None => docs
  }

  /** In a collection with distinct identities, Lookup finds exactly the document that has
      the identity, wherever it is. */
  lemma LookupUnique(docs: seq<Document>, id: ObjectId, d: Document)
    requires UniqueIds(docs)
    ensures Lookup(docs, id) == Some(d) <==> d in docs && HasIdOf(d, id)
    ensures Lookup(docs, id) == None <==> forall e :: e in docs ==> !HasIdOf(e, id)
  {
    if d in docs && HasIdOf(d, id) {
      var j :| 0 <= j < |docs| && docs[j] == d;
      var i := FindIndex(docs, id).value;
      assert i == j;
    }
  }

  /** Inserting a document whose identity is new makes it the one found under that identity,
      and leaves every other identity's document as it was. */
  lemma InsertEffect(docs: seq<Document>, d: Document, id: ObjectId, other: ObjectId)
    requires UniqueIds(docs) && HasIdOf(d, id) && Lookup(docs, id) == None
    ensures UniqueIds(docs + [d])
    ensures Lookup(docs + [d], id) == Some(d)
    ensures other != id ==> Lookup(docs + [d], other) == Lookup(docs, other)
  {
    var r := docs + [d];
    LookupUnique(docs, id, d);
    forall i, j | 0 <= i < j < |r| ensures r[i]["_id"] != r[j]["_id"] {
      if j == |docs| {
        assert r[i] in docs;
      }
    }
    LookupUnique(r, id, d);
    if other != id {
      match Lookup(docs, other)
      case Some(e) =>
        LookupUnique(docs, other, e);
        LookupUnique(r, other, e);
      case None =>
        forall e | e in r ensures !HasIdOf(e, other) {
          LookupUnique(docs, other, e);
        }
    }
  }

  /** After DeleteOne nothing is stored under the identity, and every other identity's
      document is as it was. */
  lemma DeleteEffect(docs: seq<Document>, id: ObjectId, other: ObjectId)
    requires UniqueIds(docs)
    ensures UniqueIds(DeleteOne(docs, id))
    ensures Lookup(DeleteOne(docs, id), id) == None
    ensures other != id ==> Lookup(DeleteOne(docs, id), other) == Lookup(docs, other)
    ensures |DeleteOne(docs, id)| == if Lookup(docs, id).Some? then |docs| - 1 else |docs|
  {
    var r := DeleteOne(docs, id);
    if FindIndex(docs, id).Some? {
      var i := FindIndex(docs, id).value;
      assert forall k :: 0 <= k < |r| ==> r[k] == if k < i then docs[k] else docs[k + 1];
      forall e | e in r ensures e in docs && e != docs[i] {
        var k :| 0 <= k < |r| && r[k] == e;
        if k < i { assert e["_id"] != docs[i]["_id"]; } else { assert e["_id"] != docs[i]["_id"]; }
      }
      forall e | e in docs && e != docs[i] ensures e in r {
        var k :| 0 <= k < |docs| && docs[k] == e;
        if k < i { assert r[k] == e; } else { assert r[k - 1] == e; }
      }
    }
    forall e | e in r ensures !HasIdOf(e, id) {
      if FindIndex(docs, id).Some? {
        var i := FindIndex(docs, id).value;
        assert docs[i]["_id"] == BObjectId(id);
      }
    }
    LookupUnique(r, id, map[]);
    if other != id {
      match Lookup(docs, other)
      case Some(e) =>
        LookupUnique(docs, other, e);
        LookupUnique(r, other, e);
      case None =>
        forall e | e in r ensures !HasIdOf(e, other) {
          LookupUnique(docs, other, e);
        }
        LookupUnique(r, other, map[]);
    }
  }

  /** After ReplaceOne the replacement is what is stored under the identity, in the same
      position, and every other identity's document is as it was; nothing is replaced when
      the identity is absent. */
  lemma ReplaceEffect(docs: seq<Document>, id: ObjectId, d: Document, other: ObjectId)
    requires UniqueIds(docs) && HasIdOf(d, id)
    ensures UniqueIds(ReplaceOne(docs, id, d))
    ensures |ReplaceOne(docs, id, d)| == |docs|
    ensures Lookup(docs, id).Some? ==> Lookup(ReplaceOne(docs, id, d), id) == Some(d)
    ensures Lookup(docs, id).None? ==> ReplaceOne(docs, id, d) == docs
    ensures other != id ==> Lookup(ReplaceOne(docs, id, d), other) == Lookup(docs, other)
  {
    var r := ReplaceOne(docs, id, d);
    if FindIndex(docs, id).Some? {
      var i := FindIndex(docs, id).value;
      assert r[i] == d && d["_id"] == docs[i]["_id"];
      assert forall k :: 0 <= k < |r| && k != i ==> r[k] == docs[k];
      LookupUnique(r, id, d);
      if other != id {
        match Lookup(docs, other)
        case Some(e) =>
          LookupUnique(docs, other, e);
          var k :| 0 <= k < |docs| && docs[k] == e;
          assert k != i && r[k] == e;
          LookupUnique(r, other, e);
        case None =>
          forall e | e in r ensures !HasIdOf(e, other) {
            var k :| 0 <= k < |r| && r[k] == e;
            if k != i { LookupUnique(docs, other, e); }
          }
          LookupUnique(r, other, d);
      }
    }
  }

  /** The `i` option the account filter sets: case-insensitive matching. */
  const CaseInsensitive: string := "i"

  /** The account filter pattern: the input between `.*` and `.*`, not escaped, so any
      regular-expression syntax in the input is interpreted by the server. */
  function AccountRegex(input: string): (re: Regex)
    ensures re.options == CaseInsensitive
    ensures |re.pattern| == |input| + 4
    ensures re.pattern[..2] == ".*" && re.pattern[|input| + 2..] == ".*"
    ensures re.pattern[2..|input| + 2] == input
  {
    Regex(".*" + input + ".*", CaseInsensitive)
  }

  /** `%q` formatting of a plain name: the name between double quotes (escapes are left out). */
  function Quote(s: string): string {
    "\"" + s + "\""
  }

  /** The cursor loop of the list functions: decode each document, skip the ones that fail,
      append the rest. */
  method Collect<T>(cursor: seq<Document>, decode: Document -> Option<T>) returns (items: seq<T>)
    ensures items == DecodeAll(cursor, decode)
  {
    items := [];
    var i := 0;
    while i < |cursor|
      invariant 0 <= i <= |cursor|
      invariant items == DecodeAll(cursor[..i], decode)
    {
      assert cursor[..i + 1][..i] == cursor[..i];
      match decode(cursor[i]) {
        case Some(x) => items := items + [x];
        case None =>
      }
      i := i + 1;
    }
    assert cursor[..i] == cursor;
  }

  class DocumentStore {
    /** The holdings collection, in cursor order. */
    var holdings: seq<Document>
    /** The users collection, in cursor order. */
    var users: seq<Document>

    ghost predicate Valid()
      reads this
    {
      UniqueIds(holdings) && UniqueIds(users)
    }

    constructor (initialHoldings: seq<Document>, initialUsers: seq<Document>)
      requires UniqueIds(initialHoldings) && UniqueIds(initialUsers)
      ensures Valid() && holdings == initialHoldings && users == initialUsers
    {
      holdings := initialHoldings;
      users := initialUsers;
    }

    // -------------------------------------------------------------------------
    // Listings: Find, then the cursor loop, then cursor.Err()
    // -------------------------------------------------------------------------

    /** A Find over `docs`: a failing Find or a failing cursor gives an error and no records,
        even those already collected; otherwise every selected record that decodes, in order. */
    static method FindAll<T>(docs: seq<Document>, f: Filter, regexMatch: (Regex, string) -> bool,
                             decode: Document -> Option<T>,
                             findFault: Option<string>, cursorFault: Option<string>)
      returns (r: Result<seq<T>, DbError>)
      ensures findFault.Some? ==> r == Err(Driver(findFault.value))
      ensures findFault.None? && cursorFault.Some? ==> r == Err(Driver(cursorFault.value))
      ensures findFault.None? && cursorFault.None? ==> r == Ok(DecodeAll(Select(docs, f, regexMatch), decode))
    {
      if findFault.Some? {
        return Err(Driver(findFault.value));
      }
      var items := Collect(Select(docs, f, regexMatch), decode);
      if cursorFault.Some? {
        return Err(Driver(cursorFault.value));
      }
      return Ok(items);
    }

    /** GetAllHoldings. */
    method GetAllHoldings(findFault: Option<string>, cursorFault: Option<string>)
      returns (r: Result<seq<Holding>, DbError>)
      ensures findFault.Some? ==> r == Err(Driver(findFault.value))
      ensures findFault.None? && cursorFault.Some? ==> r == Err(Driver(cursorFault.value))
      ensures findFault.None? && cursorFault.None? ==> r == Ok(DecodeAll(holdings, HoldingFromBson))
    {
      r := FindAll(holdings, Everything, (re, s) => false, HoldingFromBson, findFault, cursorFault);
      SelectEverything(holdings, (re, s) => false);
    }

    /** GetHoldingsByTicker: the holdings whose stored ticker is exactly `ticker`. */
    method GetHoldingsByTicker(ticker: string, findFault: Option<string>, cursorFault: Option<string>)
      returns (r: Result<seq<Holding>, DbError>)
      ensures findFault.Some? ==> r == Err(Driver(findFault.value))
      ensures findFault.None? && cursorFault.Some? ==> r == Err(Driver(cursorFault.value))
      ensures findFault.None? && cursorFault.None? ==>
                r == Ok(DecodeAll(Select(holdings, FieldIs("ticker", ticker), (re, s) => false), HoldingFromBson))
      ensures r.Ok? ==> forall h :: h in r.value ==> h.ticker == ticker
    {
      var regexMatch := (re, s) => false;
      r := FindAll(holdings, FieldIs("ticker", ticker), regexMatch, HoldingFromBson, findFault, cursorFault);
      if r.Ok? {
        forall h | h in r.value ensures h.ticker == ticker {
          var cursor := Select(holdings, FieldIs("ticker", ticker), regexMatch);
          DecodeAllMembers(cursor, HoldingFromBson, h);
          var d :| d in cursor && HoldingFromBson(d) == Some(h);
        }
      }
    }

    /** GetHoldingsByAccount: the holdings whose account the server's regular-expression
        engine (`regexMatch`) matches against `.*input.*`, case-insensitively. */
    method GetHoldingsByAccount(input: string, regexMatch: (Regex, string) -> bool,
                                findFault: Option<string>, cursorFault: Option<string>)
      returns (r: Result<seq<Holding>, DbError>)
      ensures findFault.Some? ==> r == Err(Driver(findFault.value))
      ensures findFault.None? && cursorFault.Some? ==> r == Err(Driver(cursorFault.value))
      ensures findFault.None? && cursorFault.None? ==>
                r == Ok(DecodeAll(Select(holdings, FieldMatches("account", AccountRegex(input)), regexMatch), HoldingFromBson))
      ensures r.Ok? ==> forall h :: h in r.value ==> regexMatch(AccountRegex(input), h.account)
    {
      var f := FieldMatches("account", AccountRegex(input));
      r := FindAll(holdings, f, regexMatch, HoldingFromBson, findFault, cursorFault);
      if r.Ok? {
        forall h | h in r.value ensures regexMatch(AccountRegex(input), h.account) {
          var cursor := Select(holdings, f, regexMatch);
          DecodeAllMembers(cursor, HoldingFromBson, h);
          var d :| d in cursor && HoldingFromBson(d) == Some(h);
        }
      }
    }

    /** GetAllUsers. */
    method GetAllUsers(findFault: Option<string>, cursorFault: Option<string>)
      returns (r: Result<seq<User>, DbError>)
      ensures findFault.Some? ==> r == Err(Driver(findFault.value))
      ensures findFault.None? && cursorFault.Some? ==> r == Err(Driver(cursorFault.value))
      ensures findFault.None? && cursorFault.None? ==> r == Ok(DecodeAll(users, UserFromBson))
    {
      r := FindAll(users, Everything, (re, s) => false, UserFromBson, findFault, cursorFault);
      SelectEverything(users, (re, s) => false);
    }

    // -------------------------------------------------------------------------
    // Single-document reads
    // -------------------------------------------------------------------------

    /** FindOne(filter).Decode: the first selected document, decoded. */
    static function FindOne<T>(docs: seq<Document>, f: Filter, decode: Document -> Option<T>): (r: Result<T, DbError>)
      ensures r.Ok? ==> exists d :: d in docs && Selects(f, d, (re, s) => false) && decode(d) == Some(r.value)
      ensures r == Err(NoDocuments) <==> forall d :: d in docs ==> !Selects(f, d, (re, s) => false)
      ensures forall i :: 0 <= i < |docs| && Selects(f, docs[i], (re, s) => false) &&
                          (forall k :: 0 <= k < i ==> !Selects(f, docs[k], (re, s) => false)) ==>
                r == match decode(docs[i]) case Some(x) => Ok(x) case None => Err(Undecodable)
    {
      SelectStartsAtFirstMatch(docs, f, (re, s) => false);
      var cursor := Select(docs, f, (re, s) => false);
      if cursor == [] then Err(NoDocuments)
      else
        assert cursor[0] in cursor;
        match decode(cursor[0])
        case Some(x) => Ok(x)
        case None => Err(Undecodable)
    }

    /** GetHoldingByID: an id text that is not an ObjectID fails before the store is read. */
    method GetHoldingById(idText: string, fault: Option<string>) returns (r: Result<Holding, DbError>)
      ensures ObjectIdFromHex(idText).None? ==> r == Err(InvalidHex)
      ensures ObjectIdFromHex(idText).Some? && fault.Some? ==> r == Err(Driver(fault.value))
      ensures ObjectIdFromHex(idText).Some? && fault.None? ==>
                r == FindOne(holdings, IdIs(ObjectIdFromHex(idText).value), HoldingFromBson)
    {
      var oid := ObjectIdFromHex(idText);
      if oid.None? {
        return Err(InvalidHex);
      }
      if fault.Some? {
        return Err(Driver(fault.value));
      }
      r := FindOne(holdings, IdIs(oid.value), HoldingFromBson);
    }

    /** GetUserByEmail: the first user stored with exactly this email. */
    method GetUserByEmail(email: string, fault: Option<string>) returns (r: Result<User, DbError>)
      ensures fault.Some? ==> r == Err(Driver(fault.value))
      ensures fault.None? ==> r == FindOne(users, FieldIs("email", email), UserFromBson)
      ensures r.Ok? ==> r.value.email == email
      ensures r.Ok? ==>
                exists i :: 0 <= i < |users| && HasEmail(users[i], email) && UserFromBson(users[i]) == Some(r.value) &&
                            forall k :: 0 <= k < i ==> !HasEmail(users[k], email)
      ensures fault.None? && (exists d :: d in users && HasEmail(d, email)) ==> r != Err(NoDocuments)
    {
      if fault.Some? {
        return Err(Driver(fault.value));
      }
      r := FindOne(users, FieldIs("email", email), UserFromBson);
      if r.Ok? {
        var i := SelectHead(users, FieldIs("email", email), (re, s) => false);
        assert UserFromBson(users[i]) == Some(r.value);
      }
    }

    /** GetUserByID: a malformed id and a failed lookup give two differently worded errors. */
    method GetUserById(idText: string, dbName: string, fault: Option<string>) returns (r: Result<User, DbError>)
      ensures ObjectIdFromHex(idText).None? ==> r == Err(NotFound("User ID: " + idText + " not found"))
      ensures ObjectIdFromHex(idText).Some? && (fault.Some? ||
                FindOne(users, IdIs(ObjectIdFromHex(idText).value), UserFromBson).Err?) ==>
                r == Err(NotFound("User ID: " + idText + " not found in Database: " + Quote(dbName)))
      ensures ObjectIdFromHex(idText).Some? && fault.None? &&
                FindOne(users, IdIs(ObjectIdFromHex(idText).value), UserFromBson).Ok? ==>
                r == FindOne(users, IdIs(ObjectIdFromHex(idText).value), UserFromBson)
    {
      var oid := ObjectIdFromHex(idText);
      if oid.None? {
        return Err(NotFound("User ID: " + idText + " not found"));
      }
      var found := if fault.Some? then Err(Driver(fault.value)) else FindOne(users, IdIs(oid.value), UserFromBson);
      if found.Err? {
        return Err(NotFound("User ID: " + idText + " not found in Database: " + Quote(dbName)));
      }
      r := found;
    }

    // -------------------------------------------------------------------------
    // Writes
    // -------------------------------------------------------------------------

    /** AddHolding: a holding that already has an ID is refused before the store is touched;
        otherwise it is inserted under the identity the driver generates (`newId`) and the
        hexadecimal text of that identity is returned. */
    method AddHolding(h: Holding, newId: ObjectId, fault: Option<string>) returns (r: Result<string, DbError>)
      requires Valid()
      modifies this
      ensures Valid() && users == old(users)
      ensures h.id != NilObjectId ==> r == Err(PresetId) && holdings == old(holdings)
      ensures h.id == NilObjectId && fault.Some? ==> r == Err(Driver(fault.value)) && holdings == old(holdings)
      ensures h.id == NilObjectId && fault.None? && Lookup(old(holdings), newId).Some? ==>
                r == Err(DuplicateKey) && holdings == old(holdings)
      ensures r.Ok? ==> r.value == ObjectIdHex(newId) &&
                        holdings == old(holdings) + [HoldingToBson(h)["_id" := BObjectId(newId)]]
      ensures h.id == NilObjectId && fault.None? && Lookup(old(holdings), newId).None? ==> r.Ok?
    {
      if h.id != NilObjectId {
        return Err(PresetId);
      }
      if fault.Some? {
        return Err(Driver(fault.value));
      }
      if Lookup(holdings, newId).Some? {
        return Err(DuplicateKey);
      }
      var d := HoldingToBson(h)["_id" := BObjectId(newId)];
      InsertEffect(holdings, d, newId, newId);
      holdings := holdings + [d];
      r := Ok(ObjectIdHex(newId));
    }

    /** DeleteHoldingByID: a malformed id fails before the store is touched. */
    method DeleteHoldingById(idText: string, fault: Option<string>) returns (r: Result<DeleteResult, DbError>)
      requires Valid()
      modifies this
      ensures Valid() && users == old(users)
      ensures ObjectIdFromHex(idText).None? ==> r == Err(InvalidHex) && holdings == old(holdings)
      ensures ObjectIdFromHex(idText).Some? && fault.Some? ==> r == Err(Driver(fault.value)) && holdings == old(holdings)
      ensures ObjectIdFromHex(idText).Some? && fault.None? ==>
                var id := ObjectIdFromHex(idText).value;
                holdings == DeleteOne(old(holdings), id) &&
                r == Ok(DeleteResult(if Lookup(old(holdings), id).Some? then 1 else 0))
    {
      var oid := ObjectIdFromHex(idText);
      if oid.None? {
        return Err(InvalidHex);
      }
      if fault.Some? {
        return Err(Driver(fault.value));
      }
      var count := if Lookup(holdings, oid.value).Some? then 1 else 0;
      DeleteEffect(holdings, oid.value, oid.value);
      holdings := DeleteOne(holdings, oid.value);
      r := Ok(DeleteResult(count));
    }

    /** The replacement ReplaceOne stores at `id`: the record's fields, under that `_id`. A
        record naming another identity is refused by the server. */
    static function Replacement(fields: Document, recordId: ObjectId, id: ObjectId): (r: Result<Document, DbError>)
      ensures r.Ok? ==> HasIdOf(r.value, id) && r.value.Keys == fields.Keys + {"_id"}
      ensures r.Err? <==> recordId != NilObjectId && recordId != id
    {
      if recordId != NilObjectId && recordId != id then Err(ImmutableId) else Ok(fields["_id" := BObjectId(id)])
    }

    /** UpdateHoldingByID: whole-document replacement at `id`; a well-formed id that matches
        nothing changes nothing and is not an error. */
    method UpdateHoldingById(idText: string, h: Holding, fault: Option<string>) returns (r: Result<UpdateResult, DbError>)
      requires Valid()
      modifies this
      ensures Valid() && users == old(users)
      ensures ObjectIdFromHex(idText).None? ==> r == Err(InvalidHex) && holdings == old(holdings)
      ensures ObjectIdFromHex(idText).Some? && fault.Some? ==> r == Err(Driver(fault.value)) && holdings == old(holdings)
      ensures ObjectIdFromHex(idText).Some? && fault.None? ==>
                var id := ObjectIdFromHex(idText).value;
                if Lookup(old(holdings), id).None? then r == Ok(UpdateResult(0, 0)) && holdings == old(holdings)
                else match Replacement(HoldingToBson(h), h.id, id)
                  case Err(e) => r == Err(e) && holdings == old(holdings)
                  case Ok(d) => r.Ok? && r.value.matchedCount == 1 && holdings == ReplaceOne(old(holdings), id, d)
    {
      var oid := ObjectIdFromHex(idText);
      if oid.None? {
        return Err(InvalidHex);
      }
      if fault.Some? {
        return Err(Driver(fault.value));
      }
      var id := oid.value;
      var prior := Lookup(holdings, id);
      if prior.None? {
        return Ok(UpdateResult(0, 0));
      }
      var d := Replacement(HoldingToBson(h), h.id, id);
      if d.Err? {
        return Err(d.error);
      }
      ReplaceEffect(holdings, id, d.value, id);
      holdings := ReplaceOne(holdings, id, d.value);
      r := Ok(UpdateResult(1, if prior.value == d.value then 0 else 1));
    }

    /** InsertUser: the user's zero ID is replaced by the identity the driver generates;
        the identity actually stored is returned. */
    method InsertUser(u: User, newId: ObjectId, fault: Option<string>) returns (r: Result<ObjectId, DbError>)
      requires Valid()
      modifies this
      ensures Valid() && holdings == old(holdings)
      ensures fault.Some? ==> r == Err(Driver(fault.value)) && users == old(users)
      ensures fault.None? ==>
                var id := if u.id == NilObjectId then newId else u.id;
                if Lookup(old(users), id).Some? then r == Err(DuplicateKey) && users == old(users)
                else r == Ok(id) && users == old(users) + [UserToBson(u)["_id" := BObjectId(id)]]
    {
      if fault.Some? {
        return Err(Driver(fault.value));
      }
      var id := if u.id == NilObjectId then newId else u.id;
      if Lookup(users, id).Some? {
        return Err(DuplicateKey);
      }
      var d := UserToBson(u)["_id" := BObjectId(id)];
      InsertEffect(users, d, id, id);
      users := users + [d];
      r := Ok(id);
    }

    /** DeleteUserByID: parse the id, look the user up (deleting nothing when that fails),
        delete, and return the user as it was before the deletion. */
    method DeleteUserById(idText: string, dbName: string, lookupFault: Option<string>, deleteFault: Option<string>)
      returns (r: Result<User, DbError>)
      requires Valid()
      modifies this
      ensures Valid() && holdings == old(holdings)
      ensures ObjectIdFromHex(idText).None? ==> r == Err(InvalidHex) && users == old(users)
      ensures ObjectIdFromHex(idText).Some? && (lookupFault.Some? ||
                FindOne(old(users), IdIs(ObjectIdFromHex(idText).value), UserFromBson).Err?) ==>
                r == Err(NotFound("User ID: " + idText + " not found in Database: " + Quote(dbName))) &&
                users == old(users)
      ensures ObjectIdFromHex(idText).Some? && lookupFault.None? && deleteFault.Some? ==>
                r.Err? && users == old(users)
      ensures r.Ok? ==>
                var id := ObjectIdFromHex(idText).value;
                FindOne(old(users), IdIs(id), UserFromBson) == Ok(r.value) &&
                users == DeleteOne(old(users), id)
      ensures (ObjectIdFromHex(idText).Some? && lookupFault.None? && deleteFault.None? &&
               FindOne(old(users), IdIs(ObjectIdFromHex(idText).value), UserFromBson).Ok?) ==> r.Ok?
    {
      var oid := ObjectIdFromHex(idText);
      if oid.None? {
        return Err(InvalidHex);
      }
      var found := GetUserById(idText, dbName, lookupFault);
      if found.Err? {
        return Err(found.error);
      }
      if deleteFault.Some? {
        return Err(Driver(deleteFault.value));
      }
      DeleteEffect(users, oid.value, oid.value);
      users := DeleteOne(users, oid.value);
      r := found;
    }

    /** UpdateUserByID: whole-document replacement of the user at `id`. */
    method UpdateUserById(idText: string, u: User, fault: Option<string>) returns (r: Result<UpdateResult, DbError>)
      requires Valid()
      modifies this
      ensures Valid() && holdings == old(holdings)
      ensures ObjectIdFromHex(idText).None? ==> r == Err(InvalidHex) && users == old(users)
      ensures ObjectIdFromHex(idText).Some? && fault.Some? ==> r == Err(Driver(fault.value)) && users == old(users)
      ensures ObjectIdFromHex(idText).Some? && fault.None? ==>
                var id := ObjectIdFromHex(idText).value;
                if Lookup(old(users), id).None? then r == Ok(UpdateResult(0, 0)) && users == old(users)
                else match Replacement(UserToBson(u), u.id, id)
                  case Err(e) => r == Err(e) && users == old(users)
                  case Ok(d) => r.Ok? && r.value.matchedCount == 1 && users == ReplaceOne(old(users), id, d)
    {
      var oid := ObjectIdFromHex(idText);
      if oid.None? {
        return Err(InvalidHex);
      }
      if fault.Some? {
        return Err(Driver(fault.value));
      }
      var id := oid.value;
      var prior := Lookup(users, id);
      if prior.None? {
        return Ok(UpdateResult(0, 0));
      }
      var d := Replacement(UserToBson(u), u.id, id);
      if d.Err? {
        return Err(d.error);
      }
      ReplaceEffect(users, id, d.value, id);
      users := ReplaceOne(users, id, d.value);
      r := Ok(UpdateResult(1, if prior.value == d.value then 0 else 1));
    }
  }

  lemma SelectEverything(docs: seq<Document>, regexMatch: (Regex, string) -> bool)
    ensures Select(docs, Everything, regexMatch) == docs
  {
    if docs != [] {
      SelectEverything(docs[1..], regexMatch);
      assert [docs[0]] + docs[1..] == docs;
    }
  }
}
