/** `POST /api/query`: validate the body, ask the adapter once, save one `Query`
    document, answer with the adapter's `{ text, visual }`. */
module QueryController {
  import opened Wrappers
  import opened QuerySchema
  import opened GeminiService

  /** `req.body`'s two fields; a field the client left out is `None`. */
  datatype QueryBody = QueryBody(query: Option<string>, board: Option<string>)

  /** The three responses the handler sends. */
  datatype QueryReply =
    | Answered(text: string, visual: string)   // 200 { text, visual }
    | BadRequest(error: string)                // 400 { error }
    | ServerError(error: string)               // 500 { error }
  {
    function Status(): (code: int)
      ensures code in {200, 400, 500}
      ensures code == 200 <==> Answered?
    {
      match this
      case Answered(_, _) => 200
      case BadRequest(_) => 400
      case ServerError(_) => 500
    }
  }

  const MissingFieldsError := "Query and board are required"
  const FallbackError := "Failed to process query"

  /** JavaScript truthiness of a body field that is a string or absent. */
  predicate Truthy(v: Option<string>) {
    v.Some? && v.value != ""
  }

  /** `err.message || 'Failed to process query'`. */
  function ErrorText(message: string): (r: string)
    ensures r != ""
    ensures message != "" ==> r == message
    ensures message == "" ==> r == FallbackError
  {
    if message != "" then message else FallbackError
  }

  /** The fields of `new Query({...})` at lines 15-21; `createdAt` is left to its default. */
  function AnswerFields(userId: UserId, query: string, board: string, g: Generated): QueryFields {
    QueryFields(Some(userId), Some(board), Some(query), Some(g.text), Some(g.visual), None)
  }

  /** The document the handler builds passes validation exactly when the question, the board
      and the generated text are all non-empty; the id, the clock and `visual` play no part. */
  lemma BuiltDocumentValid(id: RecordId, userId: UserId, query: string, board: string, g: Generated, now: Time)
    ensures IsValid(NewQuery(id, AnswerFields(userId, query, board, g), now))
            <==> query != "" && board != "" && g.text != ""
  {
  }

  /** Why `save()` rejects: validation first, then a failure of the store itself. */
  function SaveError(doc: QueryRecord, storeFault: Option<string>): (e: Option<string>)
    ensures e.None? <==> IsValid(doc) && storeFault.None?
    ensures !IsValid(doc) ==> e == Some(ValidationMessage(MissingPaths(doc)))
    ensures IsValid(doc) ==> e == storeFault
  {
    var missing := MissingPaths(doc);
    if missing != [] then Some(ValidationMessage(missing)) else storeFault
  }

  /** The prompt a request sends; only meaningful once both fields passed the check. */
  function RequestPrompt(body: QueryBody): string {
    BuildPrompt(match body.board case Some(b) => b case None => "",
                match body.query case Some(q) => q case None => "")
  }

  /** What one request does: the reply, the prompts sent to the model, the documents
      added to the store and the ObjectIds consumed. */
  datatype Effect = Effect(reply: QueryReply, prompted: seq<string>, added: seq<QueryRecord>, idsUsed: nat)

  /** The whole of `processQuery` for the caller `userId`, given the next free ObjectId,
      the model's reply to the request's prompt (used only if the model is called),
      the clock `now` and the store's own failure. */
  function HandleQuery(nextId: RecordId, userId: UserId, body: QueryBody, reply: RemoteReply,
                       now: Time, storeFault: Option<string>): (e: Effect)
    ensures !(Truthy(body.query) && Truthy(body.board)) ==> e == Effect(BadRequest(MissingFieldsError), [], [], 0)
    ensures e.reply.Status() == 400 <==> !(Truthy(body.query) && Truthy(body.board))
    ensures Truthy(body.query) && Truthy(body.board) ==>
              e.prompted == [BuildPrompt(body.board.value, body.query.value)]
    ensures e.reply.Answered? <==> |e.added| == 1
    ensures e.reply.Answered? ==>
              var d := e.added[0];
              && d.id == nextId && d.user == Some(userId) && d.createdAt == now
              && d.query == body.query && d.board == body.board
              && d.response == Some(e.reply.text) && d.visual == Some(e.reply.visual)
              && e.idsUsed == 1 && IsValid(d) && storeFault.None?
    ensures e.reply.Answered? ==> ReadReply(reply) == Ok(Generated(e.reply.text, e.reply.visual))
    ensures Truthy(body.query) && Truthy(body.board) && ReadReply(reply).Err? ==>
              e == Effect(ServerError(ErrorText(ReadReply(reply).error)), e.prompted, [], 0)
    ensures Truthy(body.query) && Truthy(body.board) && ReadReply(reply).Ok? ==>
              var g := ReadReply(reply).value;
              var doc := NewQuery(nextId, AnswerFields(userId, body.query.value, body.board.value, g), now);
              && e.idsUsed == 1
              && (SaveError(doc, storeFault).Some? ==>
                    e.reply == ServerError(ErrorText(SaveError(doc, storeFault).value)) && e.added == [])
              && (SaveError(doc, storeFault).None? ==> e.reply == Answered(g.text, g.visual) && e.added == [doc])
    ensures !e.reply.Answered? ==> e.added == [] && e.idsUsed <= 1 && e.reply.error != ""
  {
    if !Truthy(body.query) || !Truthy(body.board) then Effect(BadRequest(MissingFieldsError), [], [], 0)
    else
      var query, board := body.query.value, body.board.value;
      var prompt := BuildPrompt(board, query);
      match ReadReply(reply)
      case Err(m) => Effect(ServerError(ErrorText(m)), [prompt], [], 0)
      case Ok(g) =>
        var doc := NewQuery(nextId, AnswerFields(userId, query, board, g), now);
        match SaveError(doc, storeFault)
        case Some(m) => Effect(ServerError(ErrorText(m)), [prompt], [], 1)
        case None => Effect(Answered(g.text, g.visual), [prompt], [doc], 1)
  }

  /** The `Query` collection, with the ObjectId generator that names new documents. */
  class QueryStore {
    var records: seq<QueryRecord>
    var nextId: RecordId

    /** Everything stored passed validation and has its own `_id`, issued earlier. */
    ghost predicate Valid()
      reads this
    {
      && (forall i :: 0 <= i < |records| ==> IsValid(records[i]) && records[i].id < nextId)
      && (forall i, j :: 0 <= i < j < |records| ==> records[i].id != records[j].id)
    }

    constructor ()
      ensures Valid() && records == [] && nextId == 0
    {
      records := [];
      nextId := 0;
    }

    /** A fresh ObjectId, as `new Query(...)` assigns. */
    method FreshId() returns (id: RecordId)
      modifies this`nextId
      ensures id == old(nextId) && nextId == id + 1
    {
      id := nextId;
      nextId := nextId + 1;
    }

    /** `doc.save()`: validate, then insert one document, or reject and insert nothing. */
    method Save(doc: QueryRecord, storeFault: Option<string>) returns (err: Option<string>)
      requires Valid()
      requires doc.id < nextId && forall i :: 0 <= i < |records| ==> records[i].id != doc.id
      modifies this`records
      ensures Valid()
      ensures err == SaveError(doc, storeFault)
      ensures records == if err.None? then old(records) + [doc] else old(records)
    {
      err := SaveError(doc, storeFault);
      if err.None? {
        records := records + [doc];
      }
    }

    /** `processQuery` for the caller `userId`. `now` is the clock when the document is
        built; `storeFault` is the store's own failure, if any, when it is saved. */
    method ProcessQuery(userId: UserId, body: QueryBody, model: GenerativeModel, now: Time, storeFault: Option<string>)
      returns (reply: QueryReply)
      requires Valid()
      modifies this, model
      ensures Valid()
      ensures var e := HandleQuery(old(nextId), userId, body,
                                   model.respond(RequestPrompt(body), |old(model.prompts)|), now, storeFault);
              && reply == e.reply && model.prompts == old(model.prompts) + e.prompted
              && records == old(records) + e.added && nextId == old(nextId) + e.idsUsed
    {
      if !Truthy(body.query) || !Truthy(body.board) {
        return BadRequest(MissingFieldsError);
      }
      var query, board := body.query.value, body.board.value;
      var generated := GenerateResponse(model, query, board);
      match generated {
        case Err(m) =>
          reply := ServerError(ErrorText(m));
        case Ok(g) =>
          var id := FreshId();
          var doc := NewQuery(id, AnswerFields(userId, query, board, g), now);
          var err := Save(doc, storeFault);
          match err {
            case Some(m) => reply := ServerError(ErrorText(m));
            case None => reply := Answered(g.text, g.visual);
          }
      }
    }
  }
}
