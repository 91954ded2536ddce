/** routes/holdings.go: the holdings endpoints. Each handler turns what the store reports
    into a status and a JSON body; the write handlers decide whether the store is written.
    The total-cost sums are floating point and left out; the summaries carry `found`. */
module HoldingRoutes {
  import opened Wrappers
  import opened Models
  import opened Http
  import opened Store

  /** The success payloads of the holdings endpoints. */
  datatype HoldingsPayload =
    | Listing(holdings: seq<Holding>)                  // a bare JSON array
    | Summary(found: nat, holdings: seq<Holding>)      // {"summary": {"found": …}, "holdings": […]}
    | Single(holding: Holding)

  const FailedToRetrieve: string := "Failed to retrieve holdings"
  const InvalidInput: string := "Invalid input data"

  /** Whether a payload passes the key check: apart from `id`, only Holding fields. */
  predicate AllowedKeys(input: map<string, Json>) {
    (input - {"id"}).Keys <= HoldingFieldKeys
  }

  /** Whether GetHoldingByID finds a holding: the id parses, the driver call succeeds, and
      the first document with that identity decodes. */
  predicate HoldingFound(holdings: seq<Document>, id: string, fault: Option<string>) {
    ObjectIdFromHex(id).Some? && fault.None? &&
    DocumentStore.FindOne(holdings, IdIs(ObjectIdFromHex(id).value), HoldingFromBson).Ok?
  }

  /** The key check of AddHoldingsHandler: a top-level `id` is dropped, then every remaining
      key must be one of the Holding fields. Go visits map keys in no fixed order, so the key
      reported is whichever offending key the loop meets first. */
  method CheckFields(input: map<string, Json>) returns (r: Result<map<string, Json>, string>)
    ensures r.Ok? <==> AllowedKeys(input)
    ensures r.Ok? ==> r.value == input - {"id"}
    ensures r.Err? ==> r.error in input && r.error != "id" && r.error !in HoldingFieldKeys
    ensures "_id" in input ==> r.Err?
  {
    var payload := input;
    if "id" in payload {
      payload := payload - {"id"};
    }
    assert payload == input - {"id"};
    assert "_id" in input ==> "_id" in payload.Keys && "_id" !in HoldingFieldKeys;
    var unvisited := payload.Keys;
    while unvisited != {}
      invariant unvisited <= payload.Keys
      invariant forall k :: k in payload && k !in unvisited ==> k in HoldingFieldKeys
      decreases unvisited
    {
      var key :| key in unvisited;
      if key !in HoldingFieldKeys {
        return Err(key);
      }
      unvisited := unvisited - {key};
    }
    return Ok(payload);
  }

  /** AddHoldingsHandler. `body` is the request body bound as a JSON object: none when it is
      malformed or some other JSON value, and the empty object when it is `null`, which
      ShouldBindJSON accepts and leaves a nil map (so `null` adds an all-zero holding).
      `newId` is the identity the driver generates; `fault` a failing insert. */
  method AddHoldingsHandler(store: DocumentStore, body: Option<map<string, Json>>, newId: ObjectId,
                            fault: Option<string>)
    returns (resp: Response<HoldingsPayload>)
    requires store.Valid()
    modifies store
    ensures store.Valid() && store.users == old(store.users)
    ensures body.None? ==> resp == Response(StatusBadRequest, Error(InvalidInput))
    ensures body.Some? && !AllowedKeys(body.value) ==>
              resp.status == StatusBadRequest && resp.body.Error? &&
              exists k :: k in body.value && k != "id" && k !in HoldingFieldKeys && resp.body.error == "Unknown field: " + k
    ensures (body.Some? && !AllowedKeys(body.value)) <==>
              resp.status == StatusBadRequest && resp.body.Error? && resp.body.error != InvalidInput
    ensures body.Some? && "_id" in body.value ==> resp.status == StatusBadRequest
    ensures body.Some? && AllowedKeys(body.value) && HoldingFromJson(body.value - {"id"}).None? ==>
              resp == Response(StatusBadRequest, Error(InvalidInput))
    ensures body.Some? && AllowedKeys(body.value) && HoldingFromJson(body.value - {"id"}).Some? &&
            (fault.Some? || Lookup(old(store.holdings), newId).Some?) ==>
              resp == Response(StatusInternalServerError, Error("Failed to add holding"))
    ensures resp.status == StatusCreated <==>
              body.Some? && AllowedKeys(body.value) && HoldingFromJson(body.value - {"id"}).Some? &&
              fault.None? && Lookup(old(store.holdings), newId).None?
    ensures resp.status != StatusCreated ==> store.holdings == old(store.holdings)
    ensures resp.status == StatusCreated ==>
              body.Some? && HoldingFromJson(body.value - {"id"}).Some? &&
              var h := HoldingFromJson(body.value - {"id"}).value;
              h.id == NilObjectId &&
              store.holdings == old(store.holdings) + [HoldingToBson(h)["_id" := BObjectId(newId)]] &&
              resp.body == Message("Successfully added holdings for ticker " + h.ticker + " with ID " + ObjectIdHex(newId))
    ensures resp.status in {StatusCreated, StatusBadRequest, StatusInternalServerError}
    ensures resp.status == StatusInternalServerError ==>
              resp.body == Error("Failed to add holding") && (fault.Some? || Lookup(old(store.holdings), newId).Some?)
  {
    if body.None? {
      return Response(StatusBadRequest, Error(InvalidInput));
    }
    var checked := CheckFields(body.value);
    if checked.Err? {
      assert ("Unknown field: " + checked.error)[0] != InvalidInput[0];
      return Response(StatusBadRequest, Error("Unknown field: " + checked.error));
    }
    var holding := HoldingFromJson(checked.value);
    if holding.None? {
      return Response(StatusBadRequest, Error(InvalidInput));
    }
    FieldKeysDecodeWithoutId(checked.value);
    var added := store.AddHolding(holding.value, newId, fault);
    if added.Err? {
      return Response(StatusInternalServerError, Error("Failed to add holding"));
    }
    resp := Response(StatusCreated,
                     Message("Successfully added holdings for ticker " + holding.value.ticker + " with ID " + added.value));
  }

  /** GetAllHoldingsHandler: 200 with `found` equal to the number of holdings listed, even
      when that is zero; never 404. */
  method GetAllHoldingsHandler(store: DocumentStore, findFault: Option<string>, cursorFault: Option<string>)
    returns (resp: Response<HoldingsPayload>)
    ensures resp.status != StatusNotFound
    ensures resp.status in {StatusOK, StatusInternalServerError}
    ensures resp.status == StatusOK <==> findFault.None? && cursorFault.None?
    ensures resp.status == StatusInternalServerError ==> resp.body == Error(FailedToRetrieve)
    ensures resp.status == StatusOK ==>
              resp.body == Payload(Summary(|DecodeAll(store.holdings, HoldingFromBson)|,
                                           DecodeAll(store.holdings, HoldingFromBson)))
  {
    var r := store.GetAllHoldings(findFault, cursorFault);
    if r.Err? {
      return Response(StatusInternalServerError, Error(FailedToRetrieve));
    }
    resp := Response(StatusOK, Payload(Summary(|r.value|, r.value)));
  }

  /** GetHoldingsByTickerHandler: a store error gives 500 and takes precedence; an empty
      listing gives 404; otherwise 200 with exactly the stored holdings of that ticker that
      decode, in cursor order. */
  method GetHoldingsByTickerHandler(store: DocumentStore, ticker: string,
                                    findFault: Option<string>, cursorFault: Option<string>)
    returns (resp: Response<HoldingsPayload>)
    ensures resp.status == StatusInternalServerError <==> findFault.Some? || cursorFault.Some?
    ensures resp.status == StatusInternalServerError ==> resp.body == Error(FailedToRetrieve)
    ensures resp.status == StatusNotFound <==>
              findFault.None? && cursorFault.None? &&
              forall d :: d in store.holdings && Selects(FieldIs("ticker", ticker), d, (re, s) => false) ==>
                HoldingFromBson(d).None?
    ensures resp.status == StatusNotFound ==> resp.body == Message("No holdings found for the given ticker")
    ensures resp.status == StatusOK ==>
              resp.body.Payload? && resp.body.payload.Listing? &&
              var hs := resp.body.payload.holdings;
              hs != [] && (forall h :: h in hs ==> h.ticker == ticker) &&
              hs == DecodeAll(Select(store.holdings, FieldIs("ticker", ticker), (re, s) => false), HoldingFromBson)
    ensures resp.status in {StatusOK, StatusNotFound, StatusInternalServerError}
  {
    var r := store.GetHoldingsByTicker(ticker, findFault, cursorFault);
    DecodeAllEmpty(Select(store.holdings, FieldIs("ticker", ticker), (re, s) => false), HoldingFromBson);
    if r.Err? {
      return Response(StatusInternalServerError, Error(FailedToRetrieve));
    }
    if |r.value| == 0 {
      return Response(StatusNotFound, Message("No holdings found for the given ticker"));
    }
    resp := Response(StatusOK, Payload(Listing(r.value)));
  }

  /** GetHoldingsByAccountHandler: the same error/empty/found mapping as the ticker lookup;
      on success the summary's `found` is the number of holdings returned, each of whose
      accounts the pattern `.*account.*` matched case-insensitively. */
  method GetHoldingsByAccountHandler(store: DocumentStore, account: string, regexMatch: (Regex, string) -> bool,
                                     findFault: Option<string>, cursorFault: Option<string>)
    returns (resp: Response<HoldingsPayload>)
    ensures resp.status == StatusInternalServerError <==> findFault.Some? || cursorFault.Some?
    ensures resp.status == StatusInternalServerError ==> resp.body == Error(FailedToRetrieve)
    ensures resp.status == StatusNotFound <==>
              findFault.None? && cursorFault.None? &&
              forall d :: d in store.holdings && Selects(FieldMatches("account", AccountRegex(account)), d, regexMatch) ==>
                HoldingFromBson(d).None?
    ensures resp.status == StatusNotFound ==> resp.body == Message("No holdings found for the given account pattern")
    ensures resp.status == StatusOK ==>
              resp.body.Payload? && resp.body.payload.Summary? &&
              var hs := resp.body.payload.holdings;
              resp.body.payload.found == |hs| > 0 &&
              (forall h :: h in hs ==> regexMatch(AccountRegex(account), h.account)) &&
              hs == DecodeAll(Select(store.holdings, FieldMatches("account", AccountRegex(account)), regexMatch), HoldingFromBson)
    ensures resp.status in {StatusOK, StatusNotFound, StatusInternalServerError}
  {
    var r := store.GetHoldingsByAccount(account, regexMatch, findFault, cursorFault);
    DecodeAllEmpty(Select(store.holdings, FieldMatches("account", AccountRegex(account)), regexMatch), HoldingFromBson);
    if r.Err? {
      return Response(StatusInternalServerError, Error(FailedToRetrieve));
    }
    if |r.value| == 0 {
      return Response(StatusNotFound, Message("No holdings found for the given account pattern"));
    }
    resp := Response(StatusOK, Payload(Summary(|r.value|, r.value)));
  }

  /** GetHoldingByIDHandler: any failure, a missing holding included, gives 500. */
  method GetHoldingByIdHandler(store: DocumentStore, id: string, fault: Option<string>)
    returns (resp: Response<HoldingsPayload>)
    ensures resp.status in {StatusOK, StatusInternalServerError}
    ensures resp.status == StatusOK <==>
              ObjectIdFromHex(id).Some? && fault.None? &&
              DocumentStore.FindOne(store.holdings, IdIs(ObjectIdFromHex(id).value), HoldingFromBson).Ok?
    ensures resp.status == StatusOK ==>
              resp.body == Payload(Single(DocumentStore.FindOne(store.holdings, IdIs(ObjectIdFromHex(id).value), HoldingFromBson).value)) &&
              resp.body.payload.holding.id == ObjectIdFromHex(id).value
    ensures resp.status == StatusInternalServerError ==> resp.body == Error("Failed to retrieve holding")
  {
    var r := store.GetHoldingById(id, fault);
    if r.Err? {
      return Response(StatusInternalServerError, Error("Failed to retrieve holding"));
    }
    var oid := ObjectIdFromHex(id).value;
    var d :| d in store.holdings && Selects(IdIs(oid), d, (re, s) => false) && HoldingFromBson(d) == Some(r.value);
    resp := Response(StatusOK, Payload(Single(r.value)));
  }

  /** DeleteHoldingHandler: the holding is looked up first; if that fails the answer is 500
      and nothing is deleted. The success message names the deleted holding's ticker. */
  method DeleteHoldingHandler(store: DocumentStore, id: string, lookupFault: Option<string>, deleteFault: Option<string>)
    returns (resp: Response<HoldingsPayload>)
    requires store.Valid()
    modifies store
    ensures store.Valid() && store.users == old(store.users)
    ensures resp.status in {StatusOK, StatusInternalServerError}
    ensures !HoldingFound(old(store.holdings), id, lookupFault) ==>
              resp == Response(StatusInternalServerError, Error("Failed to find holding with ID: " + id)) &&
              store.holdings == old(store.holdings)
    ensures HoldingFound(old(store.holdings), id, lookupFault) && deleteFault.Some? ==>
              resp == Response(StatusInternalServerError, Error("Failed to delete holding"))
    ensures resp.status == StatusOK <==> HoldingFound(old(store.holdings), id, lookupFault) && deleteFault.None?
    ensures resp.status == StatusOK ==>
              var oid := ObjectIdFromHex(id).value;
              var h := DocumentStore.FindOne(old(store.holdings), IdIs(oid), HoldingFromBson).value;
              store.holdings == DeleteOne(old(store.holdings), oid) &&
              |store.holdings| == |old(store.holdings)| - 1 &&
              Lookup(store.holdings, oid) == None &&
              resp.body == Message("Holdings for " + h.ticker + " deleted successfully!")
    ensures resp.status != StatusOK ==> store.holdings == old(store.holdings)
  {
    var found := store.GetHoldingById(id, lookupFault);
    if found.Err? {
      return Response(StatusInternalServerError, Error("Failed to find holding with ID: " + id));
    }
    var deleted := store.DeleteHoldingById(id, deleteFault);
    if deleted.Err? {
      return Response(StatusInternalServerError, Error("Failed to delete holding"));
    }
    DeleteEffect(old(store.holdings), ObjectIdFromHex(id).value, ObjectIdFromHex(id).value);
    ghost var d :| d in old(store.holdings) && Selects(IdIs(ObjectIdFromHex(id).value), d, (re, s) => false) &&
             HoldingFromBson(d) == Some(found.value);
    LookupUnique(old(store.holdings), ObjectIdFromHex(id).value, d);
    resp := Response(StatusOK, Message("Holdings for " + found.value.ticker + " deleted successfully!"));
  }

  /** UpdateHoldingHandler: the holding is looked up before the body is read, so a missing
      id gives 500 whatever the body; the replacement is the body's holding, whole; the
      success message names the ticker the holding had before the update. A `null` body
      binds as the empty object, so it replaces the holding by an all-zero one. */
  method UpdateHoldingHandler(store: DocumentStore, id: string, body: Option<map<string, Json>>,
                              lookupFault: Option<string>, updateFault: Option<string>)
    returns (resp: Response<HoldingsPayload>)
    requires store.Valid()
    modifies store
    ensures store.Valid() && store.users == old(store.users)
    ensures resp.status in {StatusOK, StatusBadRequest, StatusInternalServerError}
    ensures !HoldingFound(old(store.holdings), id, lookupFault) ==>
              resp == Response(StatusInternalServerError, Error("Failed to find holding with ID: " + id)) &&
              store.holdings == old(store.holdings)
    ensures HoldingFound(old(store.holdings), id, lookupFault) && (body.None? || HoldingFromJson(body.value).None?) ==>
              resp == Response(StatusBadRequest, Error(InvalidInput))
    ensures resp.status == StatusBadRequest ==> body.None? || HoldingFromJson(body.value).None?
    ensures HoldingFound(old(store.holdings), id, lookupFault) && body.Some? && HoldingFromJson(body.value).Some? &&
            (updateFault.Some? ||
             var after := HoldingFromJson(body.value).value;
             DocumentStore.Replacement(HoldingToBson(after), after.id, ObjectIdFromHex(id).value).Err?) ==>
              resp == Response(StatusInternalServerError, Error("Failed to update holding"))
    ensures resp.status == StatusOK <==>
              HoldingFound(old(store.holdings), id, lookupFault) && body.Some? && HoldingFromJson(body.value).Some? &&
              updateFault.None? &&
              var after := HoldingFromJson(body.value).value;
              DocumentStore.Replacement(HoldingToBson(after), after.id, ObjectIdFromHex(id).value).Ok?
    ensures resp.status == StatusOK ==>
              var oid := ObjectIdFromHex(id).value;
              var before := DocumentStore.FindOne(old(store.holdings), IdIs(oid), HoldingFromBson).value;
              body.Some? && HoldingFromJson(body.value).Some? &&
              var after := HoldingFromJson(body.value).value;
              DocumentStore.Replacement(HoldingToBson(after), after.id, oid).Ok? &&
              store.holdings == ReplaceOne(old(store.holdings), oid, DocumentStore.Replacement(HoldingToBson(after), after.id, oid).value) &&
              resp.body == Message("Holdings for " + before.ticker + " updated successfully!")
    ensures resp.status != StatusOK ==> store.holdings == old(store.holdings)
  {
    var found := store.GetHoldingById(id, lookupFault);
    if found.Err? {
      return Response(StatusInternalServerError, Error("Failed to find holding with ID: " + id));
    }
    if body.None? || HoldingFromJson(body.value).None? {
      return Response(StatusBadRequest, Error(InvalidInput));
    }
    var updatedHolding := HoldingFromJson(body.value).value;
    var oid := ObjectIdFromHex(id).value;
    var d :| d in store.holdings && Selects(IdIs(oid), d, (re, s) => false) && HoldingFromBson(d) == Some(found.value);
    LookupUnique(store.holdings, oid, d);
    var updated := store.UpdateHoldingById(id, updatedHolding, updateFault);
    if updated.Err? {
      return Response(StatusInternalServerError, Error("Failed to update holding"));
    }
    resp := Response(StatusOK, Message("Holdings for " + found.value.ticker + " updated successfully!"));
  }
}
