/**
 * The profile store and the journal store (services/storage.ts:1-65): one
 * device-local key-value store with one key for the profile and one for the
 * journal.  Every profile write goes through `UpdateUser`.
 */
module Storage {
  import opened Wrappers
  import opened Types

  // ---------------------------------------------------------------------------
  // The profile record and its shallow merge
  // ---------------------------------------------------------------------------

  /** The profile of a device that has never stored one (services/storage.ts:7-15). */
  const InitialState: UserProfile := UserProfile(
    id := None, name := None, age := None, reason := None, email := None,
    isAuthenticated := false, hasPaid := false, startDate := None,
    lastCompletedDay := 0, lastCompletionTime := None,
    videoSubmittedToday := false, addictions := Some([]))

  /** The keys of a profile, for stating facts about all of them at once. */
  datatype Field =
    | IdField | NameField | AgeField | ReasonField | EmailField | IsAuthenticatedField
    | HasPaidField | StartDateField | LastCompletedDayField | LastCompletionTimeField
    | VideoSubmittedTodayField | AddictionsField

  /** The value held under one key, whatever its type. */
  datatype Value =
    | Text(text: Option<string>)
    | Number(number: Option<int>)
    | Flag(flag: bool)
    | Count(count: int)
    | Texts(texts: Option<seq<string>>)

  /** The value a profile holds under a key. */
  function Get(p: UserProfile, f: Field): Value
  {
    match f
    case IdField => Text(p.id)
    case NameField => Text(p.name)
    case AgeField => Number(p.age)
    case ReasonField => Text(p.reason)
    case EmailField => Text(p.email)
    case IsAuthenticatedField => Flag(p.isAuthenticated)
    case HasPaidField => Flag(p.hasPaid)
    case StartDateField => Number(p.startDate)
    case LastCompletedDayField => Count(p.lastCompletedDay)
    case LastCompletionTimeField => Number(p.lastCompletionTime)
    case VideoSubmittedTodayField => Flag(p.videoSubmittedToday)
    case AddictionsField => Texts(p.addictions)
  }

  /** The value a patch gives a key, or None when the key is not in the patch. */
  function PatchValue(u: Patch, f: Field): Option<Value>
  {
    match f
    case IdField => if u.id.Some? then Some(Text(u.id.value)) else None
    case NameField => if u.name.Some? then Some(Text(u.name.value)) else None
    case AgeField => if u.age.Some? then Some(Number(u.age.value)) else None
    case ReasonField => if u.reason.Some? then Some(Text(u.reason.value)) else None
    case EmailField => if u.email.Some? then Some(Text(u.email.value)) else None
    case IsAuthenticatedField => if u.isAuthenticated.Some? then Some(Flag(u.isAuthenticated.value)) else None
    case HasPaidField => if u.hasPaid.Some? then Some(Flag(u.hasPaid.value)) else None
    case StartDateField => if u.startDate.Some? then Some(Number(u.startDate.value)) else None
    case LastCompletedDayField =>
      if u.lastCompletedDay.Some? then Some(Count(u.lastCompletedDay.value)) else None
    case LastCompletionTimeField =>
      if u.lastCompletionTime.Some? then Some(Number(u.lastCompletionTime.value)) else None
    case VideoSubmittedTodayField =>
      if u.videoSubmittedToday.Some? then Some(Flag(u.videoSubmittedToday.value)) else None
    case AddictionsField => if u.addictions.Some? then Some(Texts(u.addictions.value)) else None
  }

  /** Two profiles that agree on every key are the same profile. */
  lemma ProfileExtensionality(p: UserProfile, q: UserProfile)
    requires forall f :: Get(p, f) == Get(q, f)
    ensures p == q
  {
    assert Get(p, IdField) == Get(q, IdField);
    assert Get(p, NameField) == Get(q, NameField);
    assert Get(p, AgeField) == Get(q, AgeField);
    assert Get(p, ReasonField) == Get(q, ReasonField);
    assert Get(p, EmailField) == Get(q, EmailField);
    assert Get(p, IsAuthenticatedField) == Get(q, IsAuthenticatedField);
    assert Get(p, HasPaidField) == Get(q, HasPaidField);
    assert Get(p, StartDateField) == Get(q, StartDateField);
    assert Get(p, LastCompletedDayField) == Get(q, LastCompletedDayField);
    assert Get(p, LastCompletionTimeField) == Get(q, LastCompletionTimeField);
    assert Get(p, VideoSubmittedTodayField) == Get(q, VideoSubmittedTodayField);
    assert Get(p, AddictionsField) == Get(q, AddictionsField);
  }

  /**
   * `{ ...current, ...updates }` (services/storage.ts:29): every key the patch
   * holds replaces the current value outright, every other key is kept.
   */
  function Merge(current: UserProfile, updates: Patch): (r: UserProfile)
    ensures forall f ::
      Get(r, f) == if PatchValue(updates, f).Some? then PatchValue(updates, f).value else Get(current, f)
  {
    UserProfile(
      id := updates.id.GetOr(current.id),
      name := updates.name.GetOr(current.name),
      age := updates.age.GetOr(current.age),
      reason := updates.reason.GetOr(current.reason),
      email := updates.email.GetOr(current.email),
      isAuthenticated := updates.isAuthenticated.GetOr(current.isAuthenticated),
      hasPaid := updates.hasPaid.GetOr(current.hasPaid),
      startDate := updates.startDate.GetOr(current.startDate),
      lastCompletedDay := updates.lastCompletedDay.GetOr(current.lastCompletedDay),
      lastCompletionTime := updates.lastCompletionTime.GetOr(current.lastCompletionTime),
      videoSubmittedToday := updates.videoSubmittedToday.GetOr(current.videoSubmittedToday),
      addictions := updates.addictions.GetOr(current.addictions))
  }

  /** The key-by-key description of `Merge` above pins it down: no other profile satisfies it. */
  lemma MergeDeterminedByFields(current: UserProfile, updates: Patch, r: UserProfile)
    requires forall f ::
      Get(r, f) == if PatchValue(updates, f).Some? then PatchValue(updates, f).value else Get(current, f)
    ensures r == Merge(current, updates)
  {
    ProfileExtensionality(r, Merge(current, updates));
  }

  /** A whole profile passed where a partial one is expected: every key present. */
  function FullPatch(p: UserProfile): (u: Patch)
    ensures forall f :: PatchValue(u, f) == Some(Get(p, f))
  {
    Patch(Some(p.id), Some(p.name), Some(p.age), Some(p.reason), Some(p.email),
      Some(p.isAuthenticated), Some(p.hasPaid), Some(p.startDate), Some(p.lastCompletedDay),
      Some(p.lastCompletionTime), Some(p.videoSubmittedToday), Some(p.addictions))
  }

  /** The empty patch changes nothing. */
  lemma MergeNoChanges(current: UserProfile)
    ensures Merge(current, NoChanges) == current
  {
  }

  /** Applying the same patch twice is applying it once; applying `{}` afterwards changes nothing. */
  lemma MergeIdempotent(current: UserProfile, updates: Patch)
    ensures Merge(Merge(current, updates), updates) == Merge(current, updates)
    ensures Merge(Merge(current, updates), NoChanges) == Merge(current, updates)
  {
  }

  /** Merging a whole profile yields exactly that profile, whatever was stored. */
  lemma MergeFull(current: UserProfile, p: UserProfile)
    ensures Merge(current, FullPatch(p)) == p
  {
  }

  /** A list field is replaced, not combined: `{addictions: []}` empties the list. */
  lemma MergeReplacesList(current: UserProfile, xs: seq<string>)
    ensures Merge(current, NoChanges.(addictions := Some(Some(xs)))).addictions == Some(xs)
    ensures Merge(current, NoChanges.(addictions := Some(Some([])))).addictions == Some([])
  {
  }

  // ---------------------------------------------------------------------------
  // The journal list and its upsert by day
  // ---------------------------------------------------------------------------

  /** `entries.filter(e => e.day !== day)` (services/storage.ts:39): the others, in order. */
  function WithoutDay(entries: seq<JournalEntry>, day: int): (r: seq<JournalEntry>)
    ensures |r| <= |entries|
    ensures forall e :: e in r <==> e in entries && e.day != day
    decreases |entries|
  {
    if entries == [] then []
    else (if entries[0].day == day then [] else [entries[0]]) + WithoutDay(entries[1..], day)
  }

  /** Filtering distributes over concatenation, so it keeps relative order. */
  lemma {:induction false} WithoutDayAppend(a: seq<JournalEntry>, b: seq<JournalEntry>, day: int)
    ensures WithoutDay(a + b, day) == WithoutDay(a, day) + WithoutDay(b, day)
    decreases |a|
  {
    if a == [] {
      assert a + b == b;
    } else {
      var head := if a[0].day == day then [] else [a[0]];
      assert (a + b)[0] == a[0];
      assert (a + b)[1..] == a[1..] + b;
      calc {
        WithoutDay(a + b, day);
        head + WithoutDay(a[1..] + b, day);
        { WithoutDayAppend(a[1..], b, day); }
        head + (WithoutDay(a[1..], day) + WithoutDay(b, day));
        (head + WithoutDay(a[1..], day)) + WithoutDay(b, day);
        WithoutDay(a, day) + WithoutDay(b, day);
      }
    }
  }

  /** Filtering the same day twice is filtering it once. */
  lemma {:induction false} WithoutDayTwice(entries: seq<JournalEntry>, day: int)
    ensures WithoutDay(WithoutDay(entries, day), day) == WithoutDay(entries, day)
    decreases |entries|
  {
    if entries != [] {
      var head := if entries[0].day == day then [] else [entries[0]];
      WithoutDayTwice(entries[1..], day);
      WithoutDayAppend(head, WithoutDay(entries[1..], day), day);
    }
  }

  /** The journal after saving `entry` (services/storage.ts:39-40): older entries for its day dropped, it appended. */
  function Upsert(entries: seq<JournalEntry>, entry: JournalEntry): (r: seq<JournalEntry>)
    ensures |r| > 0 && r[|r| - 1] == entry
  {
    WithoutDay(entries, entry.day) + [entry]
  }

  /** After a save exactly one entry has the saved day, it is the saved entry, and it is last. */
  lemma UpsertSingleForDay(entries: seq<JournalEntry>, entry: JournalEntry)
    ensures forall i :: 0 <= i < |Upsert(entries, entry)| ==>
      (Upsert(entries, entry)[i].day == entry.day <==> i == |Upsert(entries, entry)| - 1)
  {
  }

  /** A save leaves the entries of every other day where they were, in their order. */
  lemma UpsertKeepsOthers(entries: seq<JournalEntry>, entry: JournalEntry)
    ensures WithoutDay(Upsert(entries, entry), entry.day) == WithoutDay(entries, entry.day)
    ensures forall e :: e in Upsert(entries, entry) && e != entry ==> e in entries
  {
    WithoutDayAppend(WithoutDay(entries, entry.day), [entry], entry.day);
    WithoutDayTwice(entries, entry.day);
    assert WithoutDay([entry], entry.day) == [];
  }

  /** At most one entry per day. */
  ghost predicate UniqueDays(entries: seq<JournalEntry>)
  {
    forall i, j :: 0 <= i < j < |entries| ==> entries[i].day != entries[j].day
  }

  /** Filtering keeps at most one entry per day. */
  lemma {:induction false} WithoutDayKeepsUnique(entries: seq<JournalEntry>, day: int)
    requires UniqueDays(entries)
    ensures UniqueDays(WithoutDay(entries, day))
    decreases |entries|
  {
    if entries != [] {
      var rest := WithoutDay(entries[1..], day);
      WithoutDayKeepsUnique(entries[1..], day);
      if entries[0].day != day {
        forall k | 0 <= k < |rest| ensures rest[k].day != entries[0].day {
          assert rest[k] in rest;
          var j :| 0 <= j < |entries[1..]| && entries[1..][j] == rest[k];
          assert entries[j + 1] == rest[k];
        }
        assert WithoutDay(entries, day) == [entries[0]] + rest;
      }
    }
  }

  /** Saving keeps the journal at most one entry per day. */
  lemma UpsertKeepsUnique(entries: seq<JournalEntry>, entry: JournalEntry)
    requires UniqueDays(entries)
    ensures UniqueDays(Upsert(entries, entry))
  {
    WithoutDayKeepsUnique(entries, entry.day);
    UpsertSingleForDay(entries, entry);
  }

  /** Saving two entries for the same day leaves one entry for that day: the second. */
  lemma UpsertSameDayTwice(entries: seq<JournalEntry>, first: JournalEntry, second: JournalEntry)
    requires first.day == second.day
    ensures Upsert(Upsert(entries, first), second) == Upsert(entries, second)
  {
    UpsertKeepsOthers(entries, first);
  }

  // ---------------------------------------------------------------------------
  // The daily reset rule
  // ---------------------------------------------------------------------------

  /** Milliseconds in a minute (1000 * 60), an hour (1000 * 60 * 60) and a day (24 hours). */
  const MinuteMs: int := 60000
  const HourMs: int := 3600000
  const DayMs: int := 86400000

  /**
   * The test of services/storage.ts:51-60: a check-in is on record (a truthy
   * timestamp), at least 24 hours have passed since it, and the day is still
   * marked as submitted.
   */
  predicate ResetDue(user: UserProfile, now: int)
  {
    && HasTime(user.lastCompletionTime)
    && now - user.lastCompletionTime.value >= DayMs
    && user.videoSubmittedToday
  }

  // ---------------------------------------------------------------------------
  // The key-value store
  // ---------------------------------------------------------------------------

  /** What a key holds: a value that parses, or non-empty text that does not (empty text reads as an absent key). */
  datatype Stored<T> = Parsed(value: T) | Corrupt

  /** The device-local key-value store, one field per key; None is an absent key. */
  class Store {
    var user: Option<Stored<UserProfile>>
    var journal: Option<Stored<seq<JournalEntry>>>

    constructor (user: Option<Stored<UserProfile>>, journal: Option<Stored<seq<JournalEntry>>>)
      ensures this.user == user && this.journal == journal
    {
      this.user := user;
      this.journal := journal;
    }

    /** `getUser` (services/storage.ts:18-25): the stored profile, or the initial one if absent or unparsable. */
    function GetUser(): (p: UserProfile)
      reads this
      ensures user.Some? && user.value.Parsed? ==> p == user.value.value
      ensures user.None? || user.value.Corrupt? ==> p == InitialState
    {
      if user.Some? && user.value.Parsed? then user.value.value else InitialState
    }

    /**
     * `getJournal` (services/storage.ts:45-48): the stored entries, [] if the key
     * is absent, and None when the text does not parse (nothing catches that error).
     */
    function GetJournal(): (r: Option<seq<JournalEntry>>)
      reads this
      ensures journal.None? ==> r == Some([])
      ensures journal.Some? && journal.value.Parsed? ==> r == Some(journal.value.value)
      ensures r.None? <==> journal == Some(Corrupt)
    {
      match journal
      case None => Some([])
      case Some(Parsed(entries)) => Some(entries)
      case Some(Corrupt) => None
    }

    /** `updateUser` (services/storage.ts:27-32): merge over the current profile, store and return the result. */
    method UpdateUser(updates: Patch) returns (r: UserProfile)
      modifies this
      ensures r == Merge(old(GetUser()), updates)
      ensures user == Some(Parsed(r)) && GetUser() == r
      ensures journal == old(journal)
    {
      var current := GetUser();
      r := Merge(current, updates);
      user := Some(Parsed(r));
    }

    /**
     * `saveJournal` (services/storage.ts:34-43): upsert by day.  When the stored
     * journal does not parse, the call fails (ok is false) before writing.
     */
    method SaveJournal(entry: JournalEntry) returns (ok: bool)
      modifies this
      ensures ok <==> old(GetJournal()).Some?
      ensures ok ==> journal == Some(Parsed(Upsert(old(GetJournal()).value, entry)))
      ensures !ok ==> journal == old(journal)
      ensures user == old(user)
    {
      var existing := GetJournal();
      if existing.None? {
        ok := false;
        return;
      }
      journal := Some(Parsed(Upsert(existing.value, entry)));
      ok := true;
    }

    /**
     * `checkDailyReset` (services/storage.ts:50-65).  When the reset is due it
     * clears the submitted flag through `UpdateUser`, so the result is the
     * stored profile with the flag cleared, not the argument; otherwise it
     * writes nothing and returns the argument.
     */
    method CheckDailyReset(u: UserProfile, now: int) returns (r: UserProfile)
      modifies this
      ensures ResetDue(u, now) ==>
        && r == old(GetUser()).(videoSubmittedToday := false)
        && user == Some(Parsed(r)) && journal == old(journal)
      ensures !ResetDue(u, now) ==> r == u && user == old(user) && journal == old(journal)
    {
      if !HasTime(u.lastCompletionTime) {
        return u;
      }
      var elapsed := now - u.lastCompletionTime.value;
      if elapsed >= DayMs {
        if u.videoSubmittedToday {
          r := UpdateUser(NoChanges.(videoSubmittedToday := Some(false)));
          return;
        }
      }
      return u;
    }

    /** `localStorage.removeItem` on the profile key (App.tsx:153). */
    method RemoveUser()
      modifies this
      ensures user.None? && GetUser() == InitialState
      ensures journal == old(journal)
    {
      user := None;
    }
  }
}
