/**
 * The `useUserLocation` hook: the signed-in user's stored location, read once on mount and
 * written by `updateUserLocation`, which upserts the location row and then copies the
 * coordinates onto the user's profile.
 */
module UserLocation {
  import opened Wrappers
  import opened Remote

  /** The code the store answers `.single()` with when there is not exactly one row. */
  const NoSingleRow: string := "PGRST116"

  /** How the mount-time read ends: the table it ran on, or an error before any answer. */
  datatype LocationFetch = Answered(table: seq<LocationRow>) | FetchError(err: StoreError)

  /** How the upsert ends: the stored row, or an error. */
  datatype UpsertOutcome = Stored(row: LocationRow) | UpsertError(err: StoreError)

  /** The record `updateUserLocation` upserts: this user, active, at these coordinates, now. */
  function LocationRecordFor(userId: string, userType: UserType, coords: Coord, now: int): (rec: LocationRecord)
    ensures rec.userId == userId && rec.userType == userType && rec.location == coords
    ensures rec.lastUpdated == now && rec.isActive
  {
    LocationRecord(userId, userType, coords, now, true)
  }

  /** `setLocation(data)` after `.single()`: the row, or `null` when there was not exactly one. */
  function LocationOf(r: SingleResult): (loc: Option<LocationRow>)
    ensures loc.Some? <==> r.One?
    ensures r.One? ==> loc.value == r.row
  {
    if r.One? then Some(r.row) else None
  }

  class LocationHook {
    const userId: string
    const userType: UserType
    var location: Option<LocationRow>
    var loading: bool
    var error: Option<string>
    var requests: seq<Request>

    /** Mounting: no location, loading, no error; the user's row is requested. */
    constructor (userId: string, userType: UserType)
      ensures this.userId == userId && this.userType == userType
      ensures location.None? && loading && error.None?
      ensures requests == [SelectLocation(userId)]
    {
      this.userId, this.userType := userId, userType;
      location, loading, error := None, true, None;
      requests := [SelectLocation(userId)];
    }

    /**
     * `fetchLocation` answered. Exactly one row becomes the location; the no-single-row
     * answer is not an error and leaves no location; any other error is recorded and the
     * location kept. Loading ends on every path.
     */
    method FetchLocationDone(outcome: LocationFetch)
      modifies this
      ensures !loading && requests == old(requests)
      ensures outcome.Answered? ==>
        && error == old(error)
        && location == LocationOf(SelectSingleLocation(outcome.table, userId))
      ensures outcome.FetchError? && outcome.err.code == NoSingleRow ==> location.None? && error == old(error)
      ensures outcome.FetchError? && outcome.err.code != NoSingleRow ==>
        location == old(location) && error == Some(ErrorText(outcome.err, "Failed to fetch location"))
    {
      match outcome {
        case Answered(table) =>
          location := LocationOf(SelectSingleLocation(table, userId));
        case FetchError(err) =>
          if err.code == NoSingleRow {
            location := None;
          } else {
            error := Some(ErrorText(err, "Failed to fetch location"));
          }
      }
      loading := false;
    }

    /**
     * `updateUserLocation`. The record is upserted; on failure the error is recorded and
     * nothing else is sent. On success the stored row becomes the location before the
     * profile is patched; a failed profile patch records its error but keeps the new
     * location. Loading is not touched and an earlier error is never cleared.
     */
    method UpdateUserLocation(coords: Coord, now: int, upsert: UpsertOutcome, profileError: Option<StoreError>)
      modifies this
      ensures loading == old(loading)
      ensures upsert.UpsertError? ==>
        && location == old(location)
        && error == Some(ErrorText(upsert.err, "Failed to update location"))
        && requests == old(requests) + [UpsertLocation(LocationRecordFor(userId, userType, coords, now))]
      ensures upsert.Stored? ==>
        && location == Some(upsert.row)
        && requests == old(requests) + [UpsertLocation(LocationRecordFor(userId, userType, coords, now)),
                                        UpdateProfileLocation(userId, coords)]
        && error == (if profileError.Some? then Some(ErrorText(profileError.value, "Failed to update location")) else old(error))
    {
      requests := requests + [UpsertLocation(LocationRecordFor(userId, userType, coords, now))];
      if upsert.UpsertError? {
        error := Some(ErrorText(upsert.err, "Failed to update location"));
        return;
      }
      location := Some(upsert.row);
      requests := requests + [UpdateProfileLocation(userId, coords)];
      if profileError.Some? {
        error := Some(ErrorText(profileError.value, "Failed to update location"));
      }
    }
  }

  /**
   * As written, the upsert names no conflict column: after a user's second update the
   * table holds two rows for them, the next mount's `.single()` answers "not exactly one",
   * and the hook shows no location.
   */
  lemma RepeatedUpdateHidesLocation(rec1: LocationRecord, rec2: LocationRecord, id1: string, id2: string)
    requires rec1.userId == rec2.userId && id1 != id2
    ensures var t := UpsertOnPrimaryKey(UpsertOnPrimaryKey([], rec1, id1), rec2, id2);
      SelectSingleLocation(t, rec1.userId) == NotSingle
  {
    RepeatedUpsertDuplicates(rec1, rec2, id1, id2);
  }

  /**
   * Upserting on `user_id` keeps one row per user, so the next mount reads back exactly the
   * record last written.
   */
  lemma UpdateThenFetchFindsRecord(table: seq<LocationRow>, rec: LocationRecord, newId: string)
    requires OneRowPerUser(table)
    ensures var r := SelectSingleLocation(UpsertOnUserId(table, rec, newId), rec.userId);
      r.One? && r.row.record == rec
  {
    var t := UpsertOnUserId(table, rec, newId);
    UpsertKeepsOneRowPerUser(table, rec, newId);
    var i :| 0 <= i < |t| && t[i].record == rec;
    OneRowPerUserCount(t, rec.userId);
    var r := SelectSingleLocation(t, rec.userId);
    var j :| 0 <= j < |t| && t[j] == r.row;
    assert t[j].record.userId == t[i].record.userId;
    assert i == j;
  }
}
