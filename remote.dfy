/**
 * The remote mirror of the profile (services/storage.ts:67-148).  The network
 * is not modelled: a push is the row it would upsert plus what the remote store
 * answered, and a pull is whatever the remote store answered, given as a value.
 */
module Remote {
  import opened Wrappers
  import opened Types

  /**
   * A row of the remote `profiles` table.  Every column but the key may be
   * null; dates are kept as milliseconds (the ISO text conversion is identity here).
   */
  datatype Row = Row(
    id: string,
    age: Option<int>,
    addictions: Option<seq<string>>,
    reason: Option<string>,
    hasPaid: Option<bool>,
    startDate: Option<int>,
    lastCompletedDay: Option<int>,
    lastCompletionTime: Option<int>,
    videoSubmittedToday: Option<bool>,
    updatedAt: Option<int>)

  /** An error object returned by the remote store. A missing message is "". */
  datatype RemoteError = RemoteError(code: string, message: string)

  /** What the remote store did with an upsert. */
  datatype UpsertOutcome = Upserted | UpsertFailed(err: RemoteError) | UpsertThrew

  /** What the remote store answered to a fetch of one row: data (possibly null), an error, or an exception. */
  datatype FetchOutcome = Fetched(data: Option<Row>) | FetchFailed(err: RemoteError) | FetchThrew

  /** Which console line a push ends with; the push itself returns nothing to its caller. */
  datatype SyncLog = NotAttempted | Synced | WarnedTableMissing | LoggedError

  /** What a push sent (if anything) and how it ended. */
  datatype SyncResult = SyncResult(request: Option<Row>, log: SyncLog)

  /** The remote store reports `code` for a fetch of a row that does not exist. */
  const RowNotFound: string := "PGRST116"

  /** `t` occurs in `s` (`String.prototype.includes`). */
  predicate Contains(s: string, t: string)
    decreases |s|
  {
    t <= s || (s != [] && Contains(s[1..], t))
  }

  /** The error means the `profiles` table does not exist (services/storage.ts:92, 119). */
  predicate IsMissingTable(err: RemoteError)
  {
    Contains(err.message, "Could not find the table") || err.code == "42P01"
  }

  /** A timestamp as the wire sends it: a date when truthy, null otherwise (services/storage.ts:83, 85). */
  function WireTime(t: Option<int>): (r: Option<int>)
    ensures r.Some? <==> HasTime(t)
    ensures r.Some? ==> r == t
  {
    if HasTime(t) then t else None
  }

  /**
   * The row a push upserts (services/storage.ts:76-88), or None when the profile
   * has no id and nothing is sent (services/storage.ts:70).
   */
  function ToRow(user: UserProfile, now: int): (r: Option<Row>)
    ensures r.Some? <==> Truthy(user.id)
    ensures r.Some? ==> r.value.id == user.id.value && r.value.updatedAt == Some(now)
  {
    if !Truthy(user.id) then None
    else Some(Row(
      id := user.id.value,
      age := user.age,
      addictions := user.addictions,
      reason := user.reason,
      hasPaid := Some(user.hasPaid),
      startDate := WireTime(user.startDate),
      lastCompletedDay := Some(user.lastCompletedDay),
      lastCompletionTime := WireTime(user.lastCompletionTime),
      videoSubmittedToday := Some(user.videoSubmittedToday),
      updatedAt := Some(now)))
  }

  /**
   * `syncProfileToSupabase` (services/storage.ts:69-103): best effort.  Every
   * outcome of the remote call ends in a log line, none reaches the caller.
   */
  function Sync(user: UserProfile, now: int, outcome: UpsertOutcome): (r: SyncResult)
    ensures r.request == ToRow(user, now)
    ensures r.log == NotAttempted <==> !Truthy(user.id)
    ensures r.log == Synced <==> Truthy(user.id) && outcome.Upserted?
    ensures r.log == WarnedTableMissing <==>
      Truthy(user.id) && outcome.UpsertFailed? && IsMissingTable(outcome.err)
  {
    var request := ToRow(user, now);
    if request.None? then SyncResult(request, NotAttempted)
    else
      match outcome
      case Upserted => SyncResult(request, Synced)
      case UpsertFailed(err) =>
        if IsMissingTable(err) then SyncResult(request, WarnedTableMissing)
        else SyncResult(request, LoggedError)
      case UpsertThrew => SyncResult(request, LoggedError)
  }

  /**
   * The profile rebuilt from a fetched row (services/storage.ts:130-143): the
   * local profile with the mirrored columns laid over it, nulls defaulted,
   * the id taken from the session and `isAuthenticated` forced on.
   */
  function Overlay(userId: string, data: Row, local: UserProfile): (r: UserProfile)
    ensures r.id == Some(userId) && r.isAuthenticated
    ensures r.name == local.name && r.email == local.email
    ensures r.hasPaid == (data.hasPaid == Some(true))
    ensures r.videoSubmittedToday == (data.videoSubmittedToday == Some(true))
    ensures data.addictions.Some? ==> r.addictions == data.addictions
    ensures data.addictions.None? ==> r.addictions == Some([])
    ensures r.lastCompletedDay == if data.lastCompletedDay.Some? then data.lastCompletedDay.value else 0
    ensures r.startDate == data.startDate && r.lastCompletionTime == data.lastCompletionTime
    ensures r.age == data.age && r.reason == data.reason
  {
    local.(
      id := Some(userId),
      age := data.age,
      addictions := Some(data.addictions.GetOr([])),
      reason := data.reason,
      isAuthenticated := true,
      hasPaid := data.hasPaid.GetOr(false),
      startDate := data.startDate,
      lastCompletedDay := data.lastCompletedDay.GetOr(0),
      lastCompletionTime := data.lastCompletionTime,
      videoSubmittedToday := data.videoSubmittedToday.GetOr(false))
  }

  /**
   * `loadProfileFromSupabase` (services/storage.ts:105-148) given the fetch's
   * outcome and the local profile read at that point: not-found, a missing
   * table, any other error, an exception and a null row all give None.
   */
  function LoadProfile(userId: string, fetched: FetchOutcome, local: UserProfile): (r: Option<UserProfile>)
    ensures r.Some? <==> fetched.Fetched? && fetched.data.Some?
    ensures r.Some? ==> r.value == Overlay(userId, fetched.data.value, local)
  {
    match fetched
    // not-found, a missing table and any other error differ only in what is logged
    case FetchFailed(_) => None
    case FetchThrew => None
    case Fetched(data) => if data.None? then None else Some(Overlay(userId, data.value, local))
  }

  /** A missing row and a missing table cannot be told apart by the caller. */
  lemma NotFoundLikeMissingTable(userId: string, local: UserProfile, notFound: RemoteError, missing: RemoteError)
    requires notFound.code == RowNotFound && IsMissingTable(missing)
    ensures LoadProfile(userId, FetchFailed(notFound), local) == LoadProfile(userId, FetchFailed(missing), local)
    ensures LoadProfile(userId, FetchFailed(notFound), local) == LoadProfile(userId, Fetched(None), local) == None
  {
  }

  /**
   * Pushing a profile and loading the row back restores every mirrored
   * field, provided its timestamps are not 0 (a 0 is sent as null) and its
   * list of addictions is defined (an undefined one comes back as []).
   * The fetched row is taken to be exactly the pushed one: an undefined age,
   * reason or list leaves the key out of the push, so the remote column
   * would keep whatever it held before.
   */
  lemma RoundTrip(user: UserProfile, now: int, local: UserProfile)
    requires Truthy(user.id)
    requires user.startDate != Some(0) && user.lastCompletionTime != Some(0)
    requires user.addictions.Some?
    ensures var back := Overlay(user.id.value, ToRow(user, now).value, local);
      && back.id == user.id && back.isAuthenticated
      && back.hasPaid == user.hasPaid
      && back.startDate == user.startDate
      && back.lastCompletedDay == user.lastCompletedDay
      && back.lastCompletionTime == user.lastCompletionTime
      && back.videoSubmittedToday == user.videoSubmittedToday
      && back.addictions == user.addictions
      && back.age == user.age && back.reason == user.reason
  {
  }

  /** The truthiness test loses a timestamp of 0: it is pushed as null and comes back absent. */
  lemma ZeroTimestampIsLost(user: UserProfile, now: int, local: UserProfile)
    requires Truthy(user.id) && user.lastCompletionTime == Some(0)
    ensures Overlay(user.id.value, ToRow(user, now).value, local).lastCompletionTime.None?
  {
  }

  /** When the local profile already is the pushed one, loading the row back gives it back whole. */
  lemma RoundTripOntoSelf(user: UserProfile, now: int)
    requires Truthy(user.id) && user.isAuthenticated
    requires user.startDate != Some(0) && user.lastCompletionTime != Some(0)
    requires user.addictions.Some?
    ensures LoadProfile(user.id.value, Fetched(ToRow(user, now)), user) == Some(user)
  {
  }
}
