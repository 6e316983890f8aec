/** The Mongoose `Query` document: its fields, the `createdAt` default and the
    required-field validation that runs before a save. */
module QuerySchema {
  import opened Wrappers

  /** The owner's ObjectId, the document's own `_id`, and a `Date` in milliseconds. */
  type UserId = nat
  type RecordId = nat
  type Time = int

  /** The object handed to `new Query({...})`; a field left out is `None`. */
  datatype QueryFields = QueryFields(
    user: Option<UserId>,
    board: Option<string>,
    query: Option<string>,
    response: Option<string>,
    visual: Option<string>,
    createdAt: Option<Time>)

  /** A constructed document: the supplied fields, an `_id` and a `createdAt`. */
  datatype QueryRecord = QueryRecord(
    id: RecordId,
    user: Option<UserId>,
    board: Option<string>,
    query: Option<string>,
    response: Option<string>,
    visual: Option<string>,
    createdAt: Time)

  /** The schema paths marked `required: true`, in declaration order. */
  const RequiredPaths: seq<string> := ["user", "board", "query", "response"]

  /** Constructs a document; `createdAt` falls back to the clock reading `now`. */
  function NewQuery(id: RecordId, fields: QueryFields, now: Time): QueryRecord {
    QueryRecord(id, fields.user, fields.board, fields.query, fields.response, fields.visual,
                match fields.createdAt case Some(t) => t case None => now)
  }

  /** Mongoose's required check for a String path: present and of non-zero length. */
  predicate HasString(v: Option<string>) {
    v.Some? && v.value != ""
  }

  /** A document passes validation: owner set, board, question and answer non-empty.
      `visual` is not required and plays no part. */
  predicate IsValid(r: QueryRecord) {
    r.user.Some? && HasString(r.board) && HasString(r.query) && HasString(r.response)
  }

  /** The required paths whose check fails, in schema order. */
  function MissingPaths(r: QueryRecord): (paths: seq<string>)
    ensures "user" in paths <==> r.user.None?
    ensures "board" in paths <==> !HasString(r.board)
    ensures "query" in paths <==> !HasString(r.query)
    ensures "response" in paths <==> !HasString(r.response)
    ensures forall k :: 0 <= k < |paths| ==> paths[k] in RequiredPaths
    ensures paths == [] <==> IsValid(r)
  {
    (if r.user.None? then ["user"] else [])
    + (if !HasString(r.board) then ["board"] else [])
    + (if !HasString(r.query) then ["query"] else [])
    + (if !HasString(r.response) then ["response"] else [])
  }

  /** Mongoose's message for one failed required check. */
  function PathError(path: string): string {
    path + ": Path `" + path + "` is required."
  }

  /** The per-path messages joined with ", ". */
  function JoinPathErrors(paths: seq<string>): string {
    if |paths| == 0 then ""
    else if |paths| == 1 then PathError(paths[0])
    else PathError(paths[0]) + ", " + JoinPathErrors(paths[1..])
  }

  const ValidationPrefix := "Query validation failed: "

  /** The `message` of the ValidationError that `save()` rejects with. */
  function ValidationMessage(paths: seq<string>): (m: string)
    ensures |m| >= |ValidationPrefix| && m[..|ValidationPrefix|] == ValidationPrefix
    ensures |paths| > 0 ==> |m| > |ValidationPrefix|
  {
    ValidationPrefix + JoinPathErrors(paths)
  }

  /** Validation never looks at `visual`: dropping or changing it keeps a document valid. */
  lemma VisualIsOptional(r: QueryRecord, v: Option<string>)
    ensures IsValid(r) <==> IsValid(r.(visual := v))
  {
  }

  /** A document whose only defect is an empty answer fails with exactly this message. */
  lemma EmptyResponseMessage(r: QueryRecord)
    requires r.user.Some? && HasString(r.board) && HasString(r.query)
    requires r.response == Some("")
    ensures MissingPaths(r) == ["response"]
    ensures ValidationMessage(MissingPaths(r)) == ValidationPrefix + PathError("response")
  {
    assert MissingPaths(r) == [] + [] + [] + ["response"];
    assert JoinPathErrors(["response"]) == PathError("response");
  }
}
