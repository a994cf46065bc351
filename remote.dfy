/**
 * The hosted record store as the components see it: the shapes of the rows they read and
 * write, the requests they send (in the order they send them), and the meaning of the
 * few queries and writes whose semantics the components rely on.
 */
module Remote {
  import opened Wrappers
  import opened Seqs

  /** A geographic coordinate `{ lat, lng }`. */
  datatype Coord = Coord(lat: real, lng: real)

  /** The lifecycle values of `emergency_alerts.status` that the components read or write. */
  datatype Status = Active | Assigned | InProgress | Completed | Resolved

  datatype UserType = Victim | Volunteer

  /** A row of `emergency_alerts`; timestamps are milliseconds since the epoch. */
  datatype AlertRow = AlertRow(
    id: string,
    userId: string,
    emergencyType: string,
    description: string,
    location: Option<Coord>,
    status: Status,
    createdAt: int,
    updatedAt: int,
    volunteerId: Option<string>)

  /** The body of `.update(...)` on `emergency_alerts`: a field that is `None` is not sent. */
  datatype AlertPatch = AlertPatch(status: Option<Status>, volunteerId: Option<string>, updatedAt: Option<int>)

  /** The row after the store applies `patch` to it. */
  function ApplyPatch(row: AlertRow, patch: AlertPatch): (r: AlertRow)
    ensures r.id == row.id && r.userId == row.userId && r.emergencyType == row.emergencyType
    ensures r.description == row.description && r.location == row.location && r.createdAt == row.createdAt
    ensures patch.status.None? ==> r.status == row.status
    ensures patch.volunteerId.None? ==> r.volunteerId == row.volunteerId
    ensures patch.updatedAt.None? ==> r.updatedAt == row.updatedAt
    ensures patch.status.Some? ==> r.status == patch.status.value
    ensures patch.volunteerId.Some? ==> r.volunteerId == patch.volunteerId
    ensures patch.updatedAt.Some? ==> r.updatedAt == patch.updatedAt.value
  {
    row.(status := patch.status.GetOr(row.status),
         volunteerId := if patch.volunteerId.Some? then patch.volunteerId else row.volunteerId,
         updatedAt := patch.updatedAt.GetOr(row.updatedAt))
  }

  /** `.update(patch).eq('id', id)`: every row with that id is patched; no row is added or removed. */
  function UpdateById(table: seq<AlertRow>, id: string, patch: AlertPatch): (r: seq<AlertRow>)
    ensures |r| == |table|
    ensures forall i :: 0 <= i < |table| && table[i].id != id ==> r[i] == table[i]
    ensures forall i :: 0 <= i < |table| && table[i].id == id ==> r[i] == ApplyPatch(table[i], patch)
  {
    if table == [] then []
    else [if table[0].id == id then ApplyPatch(table[0], patch) else table[0]] + UpdateById(table[1..], id, patch)
  }

  /** `.order('created_at', { ascending: false })`; rows with equal timestamps keep their table order. */
  function NewestFirst(rows: seq<AlertRow>): (r: seq<AlertRow>)
    ensures multiset(r) == multiset(rows)
    ensures forall a :: a in r <==> a in rows
    ensures forall i, j :: 0 <= i < j < |r| ==> r[i].createdAt >= r[j].createdAt
  {
    var sorted := SortBy(rows, (a: AlertRow) => Known(-a.createdAt));
    assert forall a :: a in sorted <==> a in multiset(sorted);
    assert forall a :: a in rows <==> a in multiset(rows);
    assert forall i, j :: 0 <= i < j < |sorted| ==> RankLe(Known(-sorted[i].createdAt), Known(-sorted[j].createdAt));
    sorted
  }

  /** `.limit(n)`. */
  function Take<T>(s: seq<T>, n: nat): (r: seq<T>)
    ensures |r| <= n && (|s| <= n ==> r == s) && (n <= |s| ==> r == s[..n])
    ensures multiset(r) <= multiset(s)
  {
    if |s| <= n then s else assert s == s[..n] + s[n..]; s[..n]
  }

  /** The three `select` calls the components make on `emergency_alerts`. */
  datatype AlertQuery =
    | OpenUnassigned(limit: nat)     // status 'active', volunteer_id null, newest first, limited
    | ActiveNewest                   // status 'active', newest first
    | MissionsOf(volunteerId: string) // volunteer_id = v and status 'in_progress', newest first

  predicate Matches(q: AlertQuery, a: AlertRow) {
    match q
    case OpenUnassigned(_) => a.status == Active && a.volunteerId.None?
    case ActiveNewest => a.status == Active
    case MissionsOf(v) => a.volunteerId == Some(v) && a.status == InProgress
  }

  /** The rows the query's filters let through, in table order. */
  function MatchingRows(table: seq<AlertRow>, q: AlertQuery): (m: seq<AlertRow>)
    ensures forall a :: a in m <==> a in table && Matches(q, a)
    ensures multiset(m) <= multiset(table)
  {
    FilterSubMultiset(table, a => Matches(q, a));
    Filter(table, a => Matches(q, a))
  }

  /** What the store returns for `q` over the table `table`. */
  function SelectAlerts(table: seq<AlertRow>, q: AlertQuery): (r: seq<AlertRow>)
    ensures forall i :: 0 <= i < |r| ==> r[i] in table && Matches(q, r[i])
    ensures forall i, j :: 0 <= i < j < |r| ==> r[i].createdAt >= r[j].createdAt
    ensures !q.OpenUnassigned? ==> forall a :: a in table && Matches(q, a) ==> a in r
    ensures q.OpenUnassigned? ==> |r| <= q.limit
    ensures q.OpenUnassigned? && |r| < q.limit ==> forall a :: a in table && Matches(q, a) ==> a in r
    ensures multiset(r) <= multiset(table)
  {
    var sorted := NewestFirst(MatchingRows(table, q));
    var r := if q.OpenUnassigned? then Take(sorted, q.limit) else sorted;
    SelectionFacts(table, q, sorted, r);
    r
  }

  /** The facts `SelectAlerts` promises, for its two cases. */
  lemma SelectionFacts(table: seq<AlertRow>, q: AlertQuery, sorted: seq<AlertRow>, r: seq<AlertRow>)
    requires sorted == NewestFirst(MatchingRows(table, q))
    requires r == if q.OpenUnassigned? then Take(sorted, q.limit) else sorted
    ensures forall i :: 0 <= i < |r| ==> r[i] in table && Matches(q, r[i])
    ensures forall i, j :: 0 <= i < j < |r| ==> r[i].createdAt >= r[j].createdAt
    ensures !q.OpenUnassigned? ==> forall a :: a in table && Matches(q, a) ==> a in r
    ensures q.OpenUnassigned? ==> |r| <= q.limit
    ensures q.OpenUnassigned? && |r| < q.limit ==> forall a :: a in table && Matches(q, a) ==> a in r
    ensures multiset(r) <= multiset(table)
  {
    var m := MatchingRows(table, q);
    assert multiset(sorted) == multiset(m);
    if q.OpenUnassigned? {
      LimitOfSelection(sorted, table, q, q.limit);
    }
  }

  /** A limit on a selection keeps its order and filter, and drops rows only when the limit is reached. */
  lemma LimitOfSelection(sorted: seq<AlertRow>, table: seq<AlertRow>, q: AlertQuery, n: nat)
    requires forall a :: a in sorted <==> a in table && Matches(q, a)
    requires forall i, j :: 0 <= i < j < |sorted| ==> sorted[i].createdAt >= sorted[j].createdAt
    requires multiset(sorted) <= multiset(table)
    ensures var r := Take(sorted, n);
      && (forall i :: 0 <= i < |r| ==> r[i] in table && Matches(q, r[i]))
      && (forall i, j :: 0 <= i < j < |r| ==> r[i].createdAt >= r[j].createdAt)
      && (|r| < n ==> forall a :: a in table && Matches(q, a) ==> a in r)
      && multiset(r) <= multiset(table)
  {
    var r := Take(sorted, n);
    if n < |sorted| {
      assert r == sorted[..n];
      forall i | 0 <= i < |r| ensures r[i] in table && Matches(q, r[i]) {
        assert r[i] == sorted[i];
      }
    }
  }

  /** A limited query returns the newest matching rows: a matching row left out is no newer than the last one returned. */
  lemma SelectAlertsKeepsNewest(table: seq<AlertRow>, q: AlertQuery)
    ensures var r := SelectAlerts(table, q);
      q.OpenUnassigned? && |r| == q.limit > 0 ==>
        forall a :: a in table && Matches(q, a) && a !in r ==> a.createdAt <= r[|r| - 1].createdAt
  {
    if q.OpenUnassigned? {
      var sorted := NewestFirst(MatchingRows(table, q));
      TakeKeepsNewest(sorted, q.limit);
    }
  }

  /** `.limit(n)` on a newest-first result keeps its newest rows: any row left out is no newer than the last one kept. */
  lemma TakeKeepsNewest(sorted: seq<AlertRow>, n: nat)
    requires forall i, j :: 0 <= i < j < |sorted| ==> sorted[i].createdAt >= sorted[j].createdAt
    ensures |Take(sorted, n)| == n > 0 ==>
      forall a :: a in sorted && a !in Take(sorted, n) ==> a.createdAt <= Take(sorted, n)[n - 1].createdAt
  {
    if 0 < n <= |sorted| {
      assert sorted == sorted[..n] + sorted[n..];
      forall a | a in sorted && a !in sorted[..n]
        ensures a.createdAt <= sorted[n - 1].createdAt
      {
        assert a in sorted[n..];
        var k :| 0 <= k < |sorted| - n && sorted[n..][k] == a;
        assert sorted[n + k] == a;
      }
    }
  }

  /** A row of `profiles`, with the columns the components use. */
  datatype ProfileRow = ProfileRow(id: string, fullName: Option<string>, phone: Option<string>, location: Option<Coord>)

  /** An error object returned by the store: its `code`, its `message`, and whether it is an `Error` instance. */
  datatype StoreError = StoreError(code: string, message: string, isErrorObject: bool)

  /** The message a `catch` block records: `err instanceof Error ? err.message : fallback`. */
  function ErrorText(e: StoreError, fallback: string): (r: string)
    ensures e.isErrorObject ==> r == e.message
    ensures !e.isErrorObject ==> r == fallback
  {
    if e.isErrorObject then e.message else fallback
  }

  /** The body of an `emergency_alerts` insert. */
  datatype NewAlert = NewAlert(userId: string, emergencyType: string, description: string, location: Option<Coord>, status: Status)

  /** The body of a `volunteer_assignments` insert. */
  datatype Assignment = Assignment(alertId: string, volunteerId: string, status: Status)

  /** The body of a `messages` insert. */
  datatype NewMessage = NewMessage(alertId: string, senderId: string, content: string, mediaUrl: Option<string>)

  /** The body of a `user_locations` upsert. */
  datatype LocationRecord = LocationRecord(userId: string, userType: UserType, location: Coord, lastUpdated: int, isActive: bool)

  /** A stored `user_locations` row: the record and the id the store gave it. */
  datatype LocationRow = LocationRow(id: string, record: LocationRecord)

  /** Everything a component sends to the store, storage bucket or RPC endpoint. */
  datatype Request =
    | SelectAlertRows(query: AlertQuery)
    | SelectProfiles(ids: seq<string>)
    | UpdateAlert(id: string, patch: AlertPatch)
    | InsertAlert(alert: NewAlert)
    | InsertAssignment(assignment: Assignment)
    | AssignVolunteerRpc(alertId: string)
    | SelectMessages(alertId: string)
    | InsertMessage(message: NewMessage)
    | UploadMedia(path: string)
    | SelectChats(chatUser: string)
    | SelectLocation(locationUser: string)
    | UpsertLocation(record: LocationRecord)
    | UpdateProfileLocation(profileId: string, coords: Coord)

  /** The number of `user_locations` rows that belong to `user`. */
  function RowsOf(table: seq<LocationRow>, user: string): nat {
    |Filter(table, (r: LocationRow) => r.record.userId == user)|
  }

  predicate IdFree(table: seq<LocationRow>, id: string) {
    forall i :: 0 <= i < |table| ==> table[i].id != id
  }

  /**
   * `.upsert([record])` as the store resolves it without an `onConflict` column: the conflict
   * target is the primary key `id`, the record carries none, so the store's freshly generated
   * id never conflicts and the record is appended.
   */
  function UpsertOnPrimaryKey(table: seq<LocationRow>, rec: LocationRecord, newId: string): (r: seq<LocationRow>)
    requires IdFree(table, newId)
    ensures |r| == |table| + 1 && r[..|table|] == table && r[|table|] == LocationRow(newId, rec)
    ensures RowsOf(r, rec.userId) == RowsOf(table, rec.userId) + 1
  {
    FilterAppend(table, [LocationRow(newId, rec)], (r: LocationRow) => r.record.userId == rec.userId);
    table + [LocationRow(newId, rec)]
  }

  /** Two location updates for a user who had no row leave two rows for that user. */
  lemma RepeatedUpsertDuplicates(rec1: LocationRecord, rec2: LocationRecord, id1: string, id2: string)
    requires rec1.userId == rec2.userId && id1 != id2
    ensures var t := UpsertOnPrimaryKey(UpsertOnPrimaryKey([], rec1, id1), rec2, id2);
            RowsOf(t, rec1.userId) == 2
  {
    assert RowsOf([], rec1.userId) == 0;
  }

  predicate OneRowPerUser(table: seq<LocationRow>) {
    forall i, j :: 0 <= i < j < |table| ==> table[i].record.userId != table[j].record.userId
  }

  /**
   * `.upsert([record], { onConflict: 'user_id' })`: the user's existing row is overwritten in
   * place (keeping its id); a user without a row gets one with the store's fresh id.
   */
  function UpsertOnUserId(table: seq<LocationRow>, rec: LocationRecord, newId: string): (r: seq<LocationRow>)
    ensures |r| == |table| || r == table + [LocationRow(newId, rec)]
    ensures forall i :: 0 <= i < |table| && table[i].record.userId != rec.userId ==> r[i] == table[i]
    ensures forall i :: 0 <= i < |table| && table[i].record.userId == rec.userId ==> r[i] == LocationRow(table[i].id, rec)
    ensures (forall i :: 0 <= i < |table| ==> table[i].record.userId != rec.userId) ==> r == table + [LocationRow(newId, rec)]
  {
    if forall i :: 0 <= i < |table| ==> table[i].record.userId != rec.userId then
      table + [LocationRow(newId, rec)]
    else
      seq(|table|, i requires 0 <= i < |table| =>
        if table[i].record.userId == rec.userId then LocationRow(table[i].id, rec) else table[i])
  }

  /** Keyed by user id, any number of updates keep one row per user, and it holds the latest record. */
  lemma UpsertKeepsOneRowPerUser(table: seq<LocationRow>, rec: LocationRecord, newId: string)
    requires OneRowPerUser(table)
    ensures var r := UpsertOnUserId(table, rec, newId);
            OneRowPerUser(r) && exists i :: 0 <= i < |r| && r[i].record == rec
  {
    var r := UpsertOnUserId(table, rec, newId);
    if forall i :: 0 <= i < |table| ==> table[i].record.userId != rec.userId {
      assert r[|table|].record == rec;
    } else {
      var k :| 0 <= k < |table| && table[k].record.userId == rec.userId;
      assert r[k].record == rec;
      forall i, j | 0 <= i < j < |r| ensures r[i].record.userId != r[j].record.userId {
        assert r[i].record.userId == table[i].record.userId;
        assert r[j].record.userId == table[j].record.userId;
      }
    }
  }

  /** The answer to `.single()`: exactly one row, or the no-single-row error (code PGRST116). */
  datatype SingleResult = One(row: LocationRow) | NotSingle

  /** `.select('*').eq('user_id', user).single()` on `user_locations`. */
  function SelectSingleLocation(table: seq<LocationRow>, user: string): (r: SingleResult)
    ensures r.One? <==> RowsOf(table, user) == 1
    ensures r.One? ==> r.row in table && r.row.record.userId == user
  {
    var mine := Filter(table, (r: LocationRow) => r.record.userId == user);
    if |mine| == 1 then One(mine[0]) else NotSingle
  }

  /** With one row per user, a user has at most one row, and exactly one when some row is theirs. */
  lemma {:induction false} OneRowPerUserCount(table: seq<LocationRow>, user: string)
    requires OneRowPerUser(table)
    ensures RowsOf(table, user) <= 1
    ensures (exists i :: 0 <= i < |table| && table[i].record.userId == user) ==> RowsOf(table, user) == 1
  {
    if table != [] {
      var tail := table[1..];
      assert OneRowPerUser(tail) by {
        forall i, j | 0 <= i < j < |tail| ensures tail[i].record.userId != tail[j].record.userId {
          assert tail[i] == table[i + 1] && tail[j] == table[j + 1];
        }
      }
      OneRowPerUserCount(tail, user);
      var p := (r: LocationRow) => r.record.userId == user;
      if table[0].record.userId == user {
        forall k | 0 <= k < |tail| ensures !p(tail[k]) {
          assert tail[k] == table[k + 1];
        }
        FilterDropsAll(tail, p);
      } else if exists i :: 0 <= i < |table| && table[i].record.userId == user {
        var i :| 0 <= i < |table| && table[i].record.userId == user;
        assert tail[i - 1] == table[i];
      }
    }
  }

  /** `.update({ location: coords }).eq('id', id)` on `profiles`: only that row's location changes. */
  function SetProfileLocation(profiles: seq<ProfileRow>, id: string, coords: Coord): (r: seq<ProfileRow>)
    ensures |r| == |profiles|
    ensures forall i :: 0 <= i < |profiles| && profiles[i].id != id ==> r[i] == profiles[i]
    ensures forall i :: 0 <= i < |profiles| && profiles[i].id == id ==>
      r[i].location == Some(coords) && r[i].id == id
      && r[i].fullName == profiles[i].fullName && r[i].phone == profiles[i].phone
  {
    seq(|profiles|, i requires 0 <= i < |profiles| =>
      if profiles[i].id == id then profiles[i].(location := Some(coords)) else profiles[i])
  }
}
