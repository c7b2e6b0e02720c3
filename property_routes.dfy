/**
 * The property routes: each route runs its middleware in order and reaches the
 * handler only when every middleware passes on. The upload middleware is not
 * part of this model; the files it leaves on the request arrive in `Request.files`.
 * The listing and search routes have no middleware and call the handler directly.
 */
module PropertyRoutes {
  import opened Wrappers
  import opened Http
  import opened ObjectIds
  import opened PropertyModel
  import opened ValidateProperty
  import opened PropertyController

  /**
   * `POST /`: the create validator, then `createProperty`. A request the validator
   * refuses gets its 400 and leaves the collection alone; one it passes is answered
   * by the handler: 201 with the new record when the schema accepts the draft,
   * 400 with the schema's message when it does not.
   */
  method PostProperty(store: PropertyStore, req: Request, newId: ObjectId, now: int) returns (reply: Reply<Payload>)
    requires store.Valid() && newId !in store.records
    modifies store
    ensures store.Valid()
    ensures Select(CreateMessages, CreateFailures(req)) != [] ==>
      && reply == ValidationFailed(Select(CreateMessages, CreateFailures(req)))
      && store.records == old(store.records) && store.order == old(store.order)
    ensures Select(CreateMessages, CreateFailures(req)) == [] ==>
      var result := Materialize(CreateDraft(req), newId, now);
      && (result.Ok? ==>
        && store.records == old(store.records)[newId := result.value]
        && store.order == old(store.order) + [newId]
        && reply == Success(201, Some(CreatedMessage), One(result.value)))
      && (result.Err? ==>
        && store.records == old(store.records) && store.order == old(store.order)
        && reply == Failure(400, ValidationText(CreateRefusal, result.error)))
  {
    var gate := ValidatePropertyCreate<Payload>(req);
    if gate.Halt? {
      return gate.reply;
    }
    reply := store.Create(req, newId, now);
  }

  /** `GET /:id`: a malformed id gets 400; a well-formed one is looked up. */
  method GetProperty(store: PropertyStore, id: string) returns (reply: Reply<Payload>)
    ensures !IsObjectIdString(id) ==> reply == Failure(400, InvalidIdMessage)
    ensures IsObjectIdString(id) ==> reply == Lookup(store.records, DecodeHex(id))
  {
    var gate := ValidateObjectId<Payload>(id);
    if gate.Halt? {
      return gate.reply;
    }
    reply := store.GetById(Parse(id).value);
  }

  /**
   * `PUT /:id`: the id check, then the update validator, then `updateProperty`.
   * Each refusal leaves the collection alone, and the id check comes first, so a
   * malformed id is reported even when the body is invalid too.
   */
  method PutProperty(store: PropertyStore, id: string, req: Request, now: int) returns (reply: Reply<Payload>)
    requires store.Valid()
    modifies store
    ensures store.Valid() && store.order == old(store.order)
    ensures !IsObjectIdString(id) ==>
      reply == Failure(400, InvalidIdMessage) && store.records == old(store.records)
    ensures IsObjectIdString(id) && Select(UpdateMessages, UpdateFailures(req)) != [] ==>
      && reply == ValidationFailed(Select(UpdateMessages, UpdateFailures(req)))
      && store.records == old(store.records)
    ensures IsObjectIdString(id) && Select(UpdateMessages, UpdateFailures(req)) == [] ==>
      var key := DecodeHex(id);
      var cast := CastPatch(UpdateDraft(req));
      && (cast.Err? ==>
        reply == Failure(400, RefusalText(cast.error)) && store.records == old(store.records))
      && (cast.Ok? && key !in old(store.records) ==> reply == NotFound() && store.records == old(store.records))
      && (cast.Ok? && key in old(store.records) ==>
        && store.records == old(store.records)[key := Apply(old(store.records)[key], cast.value, now)]
        && reply == Success(200, Some(UpdatedMessage), One(store.records[key])))
  {
    var idGate := ValidateObjectId<Payload>(id);
    if idGate.Halt? {
      return idGate.reply;
    }
    var bodyGate := ValidatePropertyUpdate<Payload>(req);
    if bodyGate.Halt? {
      return bodyGate.reply;
    }
    reply := store.Update(Parse(id).value, req, now);
  }

  /** `DELETE /:id`: a malformed id gets 400; a well-formed one is deleted, or 404 when absent. */
  method DeleteProperty(store: PropertyStore, id: string) returns (reply: Reply<Payload>)
    requires store.Valid()
    modifies store
    ensures store.Valid()
    ensures !IsObjectIdString(id) ==>
      && reply == Failure(400, InvalidIdMessage)
      && store.records == old(store.records) && store.order == old(store.order)
    ensures IsObjectIdString(id) && DecodeHex(id) in old(store.records) ==>
      && store.records == old(store.records) - {DecodeHex(id)}
      && store.order == Without(old(store.order), DecodeHex(id))
      && reply == Notice(200, DeletedMessage)
    ensures IsObjectIdString(id) && DecodeHex(id) !in old(store.records) ==>
      && store.records == old(store.records) && store.order == old(store.order)
      && reply == NotFound()
  {
    var gate := ValidateObjectId<Payload>(id);
    if gate.Halt? {
      return gate.reply;
    }
    reply := store.Delete(Parse(id).value);
  }

  /** `GET /`: no middleware; the listing handler answers. */
  method GetProperties(store: PropertyStore, q: ListQuery, storeError: string) returns (reply: Reply<Payload>)
    requires store.Valid()
    ensures SkipOf(q) < 0 ==> reply == Failure(500, storeError)
    ensures SkipOf(q) >= 0 ==>
      reply.status == 200 && reply.data.Some? && reply.data.value.Many? &&
      forall i | 0 <= i < |reply.data.value.records| ::
        Satisfies(q, reply.data.value.records[i]) && reply.data.value.records[i] in store.Listing()
  {
    reply := store.GetAll(q, storeError);
    if SkipOf(q) >= 0 {
      PageItemsSatisfyQuery(q, store.Listing());
    }
  }

  /** `GET /search`: no middleware; the search handler answers with at most twenty matching records. */
  method SearchProperties(store: PropertyStore, query: Option<string>) returns (reply: Reply<Payload>)
    requires store.Valid()
    ensures !TruthyText(query) ==> reply == Failure(400, QueryRequiredMessage)
    ensures TruthyText(query) ==>
      reply.status == 200 && reply.data.Some? && reply.data.value.Many? &&
      |reply.data.value.records| <= SearchCap &&
      forall i | 0 <= i < |reply.data.value.records| ::
        SearchMatches(query.value, reply.data.value.records[i]) && reply.data.value.records[i] in store.Listing()
  {
    reply := store.Search(query);
    if TruthyText(query) {
      SearchItemsMatch(query.value, store.Listing());
    }
  }
}
