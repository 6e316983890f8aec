/** `GET /api/history`: `Query.find({ user }).sort({ createdAt: -1 })` over the store,
    read-only, or a 500 when the store fails. */
module HistoryController {
  import opened Wrappers
  import opened QuerySchema

  /** 200 with the records, or 500 `{ msg }`. */
  datatype HistoryReply = Listed(records: seq<QueryRecord>) | Failed(msg: string)

  const ServerErrorMsg := "Server error"

  /** Non-increasing `createdAt`: most recent first. */
  predicate NewestFirst(s: seq<QueryRecord>) {
    forall i, j :: 0 <= i < j < |s| ==> s[i].createdAt >= s[j].createdAt
  }

  /** `find({ user })`: the owner's documents, in store order. */
  function FindByUser(records: seq<QueryRecord>, user: UserId): (r: seq<QueryRecord>)
    ensures |r| <= |records|
    ensures forall k :: 0 <= k < |r| ==> r[k].user == Some(user)
  {
    if records == [] then []
    else
      var init, last := records[..|records| - 1], records[|records| - 1];
      FindByUser(init, user) + (if last.user == Some(user) then [last] else [])
  }

  /** `find({ user })` keeps each of the owner's documents as often as the store holds it,
      and none of anyone else's. */
  lemma {:induction false} FindByUserCount(records: seq<QueryRecord>, user: UserId, x: QueryRecord)
    ensures multiset(FindByUser(records, user))[x] == if x.user == Some(user) then multiset(records)[x] else 0
  {
    if records != [] {
      var init, last := records[..|records| - 1], records[|records| - 1];
      assert records == init + [last];
      FindByUserCount(init, user, x);
    }
  }

  /** A store without the owner's documents gives an empty `find({ user })`. */
  lemma {:induction false} FindByUserNone(records: seq<QueryRecord>, user: UserId)
    requires forall i :: 0 <= i < |records| ==> records[i].user != Some(user)
    ensures FindByUser(records, user) == []
  {
    if records != [] {
      FindByUserNone(records[..|records| - 1], user);
    }
  }

  /** Puts `x` into a newest-first sequence, ahead of every record not newer than it. */
  function InsertNewestFirst(x: QueryRecord, s: seq<QueryRecord>): (r: seq<QueryRecord>)
    requires NewestFirst(s)
    ensures |r| == |s| + 1
    ensures r[0] == x || (|s| > 0 && r[0] == s[0])
    ensures NewestFirst(r)
    ensures multiset(r) == multiset(s) + multiset{x}
  {
    if s == [] then [x]
    else if s[0].createdAt <= x.createdAt then [x] + s
    else
      var tail := InsertNewestFirst(x, s[1..]);
      assert s == [s[0]] + s[1..];
      assert tail[0].createdAt <= s[0].createdAt;
      [s[0]] + tail
  }

  /** `sort({ createdAt: -1 })`. Among equal timestamps the later-stored record comes first. */
  function SortNewestFirst(s: seq<QueryRecord>): (r: seq<QueryRecord>)
    ensures NewestFirst(r)
    ensures multiset(r) == multiset(s)
  {
    if s == [] then []
    else
      assert s == s[..|s| - 1] + [s[|s| - 1]];
      InsertNewestFirst(s[|s| - 1], SortNewestFirst(s[..|s| - 1]))
  }

  /** `getHistory` for the caller `userId`; `storeUp` is false when the query throws. */
  function GetHistory(records: seq<QueryRecord>, userId: UserId, storeUp: bool): (r: HistoryReply)
    ensures !storeUp ==> r == Failed(ServerErrorMsg)
    ensures storeUp ==> r.Listed?
    ensures storeUp ==> NewestFirst(r.records)
    ensures storeUp ==> forall k :: 0 <= k < |r.records| ==> r.records[k].user == Some(userId)
    ensures storeUp ==> multiset(r.records) == multiset(FindByUser(records, userId))
  {
    if storeUp then
      var found := FindByUser(records, userId);
      var s := SortNewestFirst(found);
      assert forall k :: 0 <= k < |s| ==> s[k] in multiset(found);
      Listed(s)
    else Failed(ServerErrorMsg)
  }

  /** The listing holds each of the caller's records exactly as often as the store does,
      and nothing else. */
  lemma HistoryCounts(records: seq<QueryRecord>, userId: UserId, x: QueryRecord)
    ensures multiset(GetHistory(records, userId, true).records)[x]
            == if x.user == Some(userId) then multiset(records)[x] else 0
  {
    FindByUserCount(records, userId, x);
  }

  /** Every stored record of the caller is listed: nothing is paged away. */
  lemma HistoryIsComplete(records: seq<QueryRecord>, userId: UserId, i: nat)
    requires i < |records| && records[i].user == Some(userId)
    ensures records[i] in GetHistory(records, userId, true).records
  {
    assert records[i] in multiset(records);
    HistoryCounts(records, userId, records[i]);
    assert records[i] in multiset(GetHistory(records, userId, true).records);
  }

  /** The listing is exactly as long as the caller's part of the store. */
  lemma HistoryLength(records: seq<QueryRecord>, userId: UserId)
    ensures |GetHistory(records, userId, true).records| == |FindByUser(records, userId)|
  {
    var s := GetHistory(records, userId, true).records;
    assert |multiset(s)| == |s|;
  }

  /** A caller who never submitted anything gets `200 []`. */
  lemma EmptyHistoryForNewCaller(records: seq<QueryRecord>, userId: UserId)
    requires forall i :: 0 <= i < |records| ==> records[i].user != Some(userId)
    ensures GetHistory(records, userId, true) == Listed([])
  {
    FindByUserNone(records, userId);
  }

  /** Storing one more document extends `find({ user })` by it exactly when it is the owner's. */
  lemma FindByUserAppend(records: seq<QueryRecord>, doc: QueryRecord, user: UserId)
    ensures FindByUser(records + [doc], user)
            == FindByUser(records, user) + (if doc.user == Some(user) then [doc] else [])
  {
    var all := records + [doc];
    assert all[..|all| - 1] == records;
  }

  /** Saving one more record of the caller adds exactly that record to the caller's listing. */
  lemma SavedRecordJoinsHistory(records: seq<QueryRecord>, doc: QueryRecord, userId: UserId)
    requires doc.user == Some(userId)
    ensures multiset(GetHistory(records + [doc], userId, true).records)
            == multiset(GetHistory(records, userId, true).records) + multiset{doc}
  {
    FindByUserAppend(records, doc, userId);
    assert multiset(FindByUser(records + [doc], userId)) == multiset(FindByUser(records, userId)) + multiset{doc};
  }

  /** Two saves of the caller's records: both join the listing, neither replaces the other. */
  lemma TwoSavesJoinHistory(records: seq<QueryRecord>, a: QueryRecord, b: QueryRecord, userId: UserId)
    requires a.user == Some(userId) && b.user == Some(userId)
    ensures multiset(GetHistory(records + [a] + [b], userId, true).records)
            == multiset(GetHistory(records, userId, true).records) + multiset{a, b}
  {
    var f0 := FindByUser(records, userId);
    FindByUserAppend(records, a, userId);
    FindByUserAppend(records + [a], b, userId);
    assert FindByUser(records + [a] + [b], userId) == f0 + [a] + [b];
    assert multiset(f0 + [a] + [b]) == multiset(f0) + multiset{a, b};
  }

  /** Saving a record of another user leaves the caller's listing as it was. */
  lemma OtherUsersRecordsInvisible(records: seq<QueryRecord>, doc: QueryRecord, userId: UserId)
    requires doc.user != Some(userId)
    ensures GetHistory(records + [doc], userId, true) == GetHistory(records, userId, true)
  {
    FindByUserAppend(records, doc, userId);
    var found := FindByUser(records, userId);
    assert found + [] == found;
    assert FindByUser(records + [doc], userId) == found;
  }
}
