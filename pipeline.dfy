/** Properties of the submission pipeline that span the controller, the adapter,
    the schema and the history endpoint. */
module Pipeline {
  import opened Wrappers
  import opened QuerySchema
  import opened GeminiService
  import opened QueryController
  import opened HistoryController

  /** A validated request whose model reply reads as a non-empty answer is answered with
      exactly that `{ text, visual }` when the store accepts the write. */
  lemma NonEmptyAnswerIsServed(nextId: RecordId, userId: UserId, body: QueryBody, reply: RemoteReply,
                               now: Time, g: Generated)
    requires Truthy(body.query) && Truthy(body.board)
    requires ReadReply(reply) == Ok(g) && g.text != ""
    ensures HandleQuery(nextId, userId, body, reply, now, None).reply == Answered(g.text, g.visual)
  {
    BuiltDocumentValid(nextId, userId, body.query.value, body.board.value, g, now);
  }

  /** An empty `text` from the adapter leaves `response` empty: validation rejects the
      document, nothing is stored, and the caller gets a 500 carrying the validation message. */
  lemma EmptyAnswerIsServerError(nextId: RecordId, userId: UserId, body: QueryBody, reply: RemoteReply,
                                 now: Time, storeFault: Option<string>, visual: string)
    requires Truthy(body.query) && Truthy(body.board)
    requires ReadReply(reply) == Ok(Generated("", visual))
    ensures HandleQuery(nextId, userId, body, reply, now, storeFault).reply
            == ServerError(ValidationPrefix + PathError("response"))
    ensures HandleQuery(nextId, userId, body, reply, now, storeFault).added == []
  {
    var doc := NewQuery(nextId, AnswerFields(userId, body.query.value, body.board.value, Generated("", visual)), now);
    EmptyResponseMessage(doc);
  }

  /** A query of blanks is truthy: the handler does not reject it, and sends the
      tutoring prompt built from it to the model. */
  lemma BlankQueryPassesValidation(nextId: RecordId, userId: UserId, query: string, board: string,
                                   reply: RemoteReply, now: Time, storeFault: Option<string>)
    requires |query| > 0 && forall i :: 0 <= i < |query| ==> query[i] == ' '
    requires board != ""
    ensures var e := HandleQuery(nextId, userId, QueryBody(Some(query), Some(board)), reply, now, storeFault);
            !e.reply.BadRequest? && e.prompted == [BuildPrompt(board, query)]
  {
    assert query[0] == ' ';
  }

  /** Submitting the same request twice: when both succeed, the two records carry the
      same owner, question and board under two different `_id`s, and both join the
      caller's history, neither replacing the other. */
  lemma ResubmissionIsNotDeduplicated(records: seq<QueryRecord>, nextId: RecordId, userId: UserId, body: QueryBody,
                                      reply1: RemoteReply, reply2: RemoteReply, now1: Time, now2: Time)
    requires HandleQuery(nextId, userId, body, reply1, now1, None).reply.Answered?
    requires HandleQuery(nextId + 1, userId, body, reply2, now2, None).reply.Answered?
    ensures var a := HandleQuery(nextId, userId, body, reply1, now1, None).added[0];
            var b := HandleQuery(nextId + 1, userId, body, reply2, now2, None).added[0];
            && a.id != b.id && a.user == b.user == Some(userId)
            && a.query == b.query == body.query && a.board == b.board == body.board
            && multiset(GetHistory(records + [a] + [b], userId, true).records)
               == multiset(GetHistory(records, userId, true).records) + multiset{a, b}
  {
    var a := HandleQuery(nextId, userId, body, reply1, now1, None).added[0];
    var b := HandleQuery(nextId + 1, userId, body, reply2, now2, None).added[0];
    TwoSavesJoinHistory(records, a, b, userId);
  }
}
