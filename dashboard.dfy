/**
 * The daily cycle as the dashboard runs it (pages/Dashboard.tsx): the program
 * day, the countdown to the next unlock and the reset when it is reached, the
 * check-in, the journal form and the milestone badges.  The `user` prop is a
 * parameter of each handler; what a handler passes to `onUpdateUser` is its
 * result.
 */
module Dashboard {
  import opened Wrappers
  import opened Types
  import opened Storage
  import Constants
  import Decimal

  /** The day being worked on (pages/Dashboard.tsx:84). */
  function CurrentDay(user: UserProfile): int
  {
    user.lastCompletedDay + 1
  }

  /** The "days remaining" figure (pages/Dashboard.tsx:176); it goes negative past the last day. */
  function DaysRemaining(user: UserProfile): (r: int)
    ensures r < 0 <==> user.lastCompletedDay >= Constants.ProgramDays
    ensures r == 0 <==> CurrentDay(user) == Constants.ProgramDays
    ensures r > 0 <==> CurrentDay(user) < Constants.ProgramDays
  {
    Constants.ProgramDays - CurrentDay(user)
  }

  /** `isLocked` (pages/Dashboard.tsx:85): true while today's video is still to be submitted. */
  predicate IsLocked(user: UserProfile)
  {
    !user.videoSubmittedToday
  }

  // ---------------------------------------------------------------------------
  // The countdown and the reset
  // ---------------------------------------------------------------------------

  /** Whole hours and the minutes left over. */
  datatype Countdown = Countdown(hours: int, minutes: int)

  /** `h` and `m` of pages/Dashboard.tsx:98-99 for a positive number of milliseconds. */
  function CountdownOf(diff: int): (c: Countdown)
    requires diff > 0
    ensures c.hours >= 0 && 0 <= c.minutes < 60
    ensures c.hours * HourMs + c.minutes * MinuteMs <= diff < c.hours * HourMs + (c.minutes + 1) * MinuteMs
  {
    Countdown(diff / HourMs, (diff % HourMs) / MinuteMs)
  }

  /** Within one day of the check-in the hours never exceed 24, and reach it only at the check-in instant. */
  lemma CountdownWithinDay(diff: int)
    requires 0 < diff <= DayMs
    ensures CountdownOf(diff).hours <= 24
    ensures CountdownOf(diff).hours == 24 <==> diff == DayMs
  {
  }

  /** The countdown text `${h}h ${m}m` (pages/Dashboard.tsx:100). */
  function FormatCountdown(c: Countdown): (r: string)
    ensures |r| >= 5 && r[|r| - 1] == 'm'
  {
    Decimal.IntToString(c.hours) + "h " + Decimal.IntToString(c.minutes) + "m"
  }

  /** The text shows the countdown unambiguously: two different countdowns never read the same. */
  lemma {:induction false} FormatCountdownInjective(a: Countdown, b: Countdown)
    ensures FormatCountdown(a) == FormatCountdown(b) ==> a == b
  {
    var ha, hb := Decimal.IntToString(a.hours), Decimal.IntToString(b.hours);
    var ma, mb := Decimal.IntToString(a.minutes), Decimal.IntToString(b.minutes);
    var ta, tb := FormatCountdown(a), FormatCountdown(b);
    if ta == tb {
      assert ta == ha + ("h " + ma + "m");
      assert tb == hb + ("h " + mb + "m");
      NoLetterH(a.hours);
      NoLetterH(b.hours);
      assert ta[|ha|] == 'h' && tb[|hb|] == 'h';
      assert |ha| == |hb|;
      assert ha == ta[..|ha|] == tb[..|hb|] == hb;
      assert ma == ta[|ha| + 2..|ta| - 1];
      assert mb == tb[|hb| + 2..|tb| - 1];
      Decimal.IntToStringInjective(a.hours, b.hours);
      Decimal.IntToStringInjective(a.minutes, b.minutes);
    }
  }

  /** A number's decimal text has no letter h in it. */
  lemma NoLetterH(n: int)
    ensures forall i :: 0 <= i < |Decimal.IntToString(n)| ==> Decimal.IntToString(n)[i] != 'h'
  {
  }

  /** What one run of `updateTimer` does (pages/Dashboard.tsx:91-112). */
  datatype TickStep = Idle | Counting(left: Countdown) | Unlock

  function NextTick(user: UserProfile, now: int): (r: TickStep)
    ensures r.Idle? <==> !(user.videoSubmittedToday && HasTime(user.lastCompletionTime))
    ensures r.Unlock? <==> ResetDue(user, now)
    ensures r.Counting? ==>
      var diff := user.lastCompletionTime.value + DayMs - now;
      && r.left.hours * HourMs + r.left.minutes * MinuteMs <= diff
      && diff < r.left.hours * HourMs + (r.left.minutes + 1) * MinuteMs
      && 0 <= r.left.minutes < 60
  {
    if user.videoSubmittedToday && HasTime(user.lastCompletionTime) then
      var diff := user.lastCompletionTime.value + DayMs - now;
      if diff > 0 then Counting(CountdownOf(diff)) else Unlock
    else Idle
  }

  /** The tick on the dashboard and the startup reset in the store agree on when a day is over. */
  lemma ResetRulesAgree(user: UserProfile, now: int)
    requires user.videoSubmittedToday && HasTime(user.lastCompletionTime)
    ensures NextTick(user, now).Unlock? <==> user.lastCompletionTime.value + DayMs - now <= 0
    ensures NextTick(user, now).Unlock? <==> ResetDue(user, now)
  {
  }

  /** While the day is open for a check-in the timer shows nothing and never resets. */
  lemma OpenDayHasNoCountdown(user: UserProfile, now: int)
    ensures IsLocked(user) ==> NextTick(user, now).Idle?
    ensures NextTick(user, now).Counting? ==> !IsLocked(user)
  {
  }

  // ---------------------------------------------------------------------------
  // Check-in
  // ---------------------------------------------------------------------------

  /** The update of pages/Dashboard.tsx:134-138; the day is counted from the prop, not the store. */
  function CheckInPatch(user: UserProfile, now: int): Patch
  {
    NoChanges.(
      videoSubmittedToday := Some(true),
      lastCompletedDay := Some(user.lastCompletedDay + 1),
      lastCompletionTime := Some(Some(now)))
  }

  /** A check-in changes exactly three fields of the stored profile, and counts one more day with no cap. */
  lemma CheckInEffect(stored: UserProfile, user: UserProfile, now: int)
    ensures Merge(stored, CheckInPatch(user, now)) ==
      stored.(videoSubmittedToday := true, lastCompletedDay := user.lastCompletedDay + 1,
              lastCompletionTime := Some(now))
    ensures CurrentDay(Merge(stored, CheckInPatch(user, now))) == CurrentDay(user) + 1
  {
  }

  /**
   * After a check-in at a nonzero instant t the day stays locked for every
   * tick before t + 24h, with a countdown, and every tick from then on resets it.
   */
  lemma LockedForOneDay(stored: UserProfile, user: UserProfile, t: int, now: int)
    requires t != 0
    ensures var q := Merge(stored, CheckInPatch(user, t));
      && (now < t + DayMs ==> NextTick(q, now).Counting?)
      && (now >= t + DayMs ==> NextTick(q, now).Unlock?)
  {
  }

  /** A check-in at 0 is not seen as a check-in at all: no countdown and no reset ever follow. */
  lemma CheckInAtZeroIsIgnored(stored: UserProfile, user: UserProfile, now: int)
    ensures NextTick(Merge(stored, CheckInPatch(user, 0)), now).Idle?
  {
  }

  /** Check in at t0; one minute before the day is over the countdown reads "0h 1m", one minute after it the day resets. */
  lemma CheckInCycleExample(stored: UserProfile, user: UserProfile, t0: int)
    requires t0 != 0
    ensures var q := Merge(stored, CheckInPatch(user, t0));
      && q.videoSubmittedToday && q.lastCompletionTime == Some(t0)
      && q.lastCompletedDay == user.lastCompletedDay + 1
      && NextTick(q, t0 + 23 * HourMs + 59 * MinuteMs) == Counting(Countdown(0, 1))
      && FormatCountdown(Countdown(0, 1)) == "0h 1m"
      && NextTick(q, t0 + 24 * HourMs + MinuteMs).Unlock?
  {
  }

  // ---------------------------------------------------------------------------
  // Milestones
  // ---------------------------------------------------------------------------

  /** A badge shows as earned once its day has been completed (pages/Dashboard.tsx:317). */
  predicate IsUnlocked(user: UserProfile, m: Milestone)
  {
    user.lastCompletedDay >= m.day
  }

  /** The earned badges are always a prefix of the table, since its days increase. */
  lemma UnlockedArePrefix(user: UserProfile)
    ensures forall i, j :: 0 <= i < j < |Constants.Milestones| && IsUnlocked(user, Constants.Milestones[j]) ==>
      IsUnlocked(user, Constants.Milestones[i])
  {
    Constants.MilestonesOrdered();
  }

  /** A check-in never takes a badge away, whatever the stored profile was. */
  lemma CheckInKeepsBadges(stored: UserProfile, user: UserProfile, now: int, m: Milestone)
    ensures IsUnlocked(user, m) ==> IsUnlocked(Merge(stored, CheckInPatch(user, now)), m)
  {
  }

  /** A badge once earned stays earned for every profile at least as far along. */
  lemma UnlockMonotone(p: UserProfile, q: UserProfile, m: Milestone)
    requires p.lastCompletedDay <= q.lastCompletedDay
    ensures IsUnlocked(p, m) ==> IsUnlocked(q, m)
  {
  }

  // ---------------------------------------------------------------------------
  // Journal
  // ---------------------------------------------------------------------------

  /** The entry built by `handleJournalSubmit` (pages/Dashboard.tsx:150-154). */
  function NewEntry(user: UserProfile, now: int, answers: seq<Answer>): (e: JournalEntry)
    ensures e.day == user.lastCompletedDay + 1 && e.date == now && e.answers == answers
  {
    JournalEntry(CurrentDay(user), now, answers)
  }

  /** Newest first. */
  ghost predicate SortedByDateDesc(s: seq<JournalEntry>)
  {
    forall i, j :: 0 <= i < j < |s| ==> s[i].date >= s[j].date
  }

  /** Places e in front of the first entry that is not newer than it. */
  function InsertByDate(e: JournalEntry, s: seq<JournalEntry>): (r: seq<JournalEntry>)
    requires SortedByDateDesc(s)
    ensures SortedByDateDesc(r)
    ensures multiset(r) == multiset(s) + multiset{e}
    decreases |s|
  {
    if s == [] || s[0].date <= e.date then [e] + s
    else
      var rest := InsertByDate(e, s[1..]);
      assert multiset(s) == multiset{s[0]} + multiset(s[1..]) by { assert s == [s[0]] + s[1..]; }
      assert forall x :: x in rest ==> x.date <= s[0].date by {
        forall x | x in rest ensures x.date <= s[0].date {
          assert x in multiset(rest);
          assert x == e || x in multiset(s[1..]);
        }
      }
      [s[0]] + rest
  }

  /** `history.sort((a, b) => b.date - a.date)` (pages/Dashboard.tsx:123, 158): the same entries, newest first. */
  function SortByDateDesc(s: seq<JournalEntry>): (r: seq<JournalEntry>)
    ensures SortedByDateDesc(r)
    ensures multiset(r) == multiset(s)
    decreases |s|
  {
    if s == [] then []
    else
      assert s == [s[0]] + s[1..];
      InsertByDate(s[0], SortByDateDesc(s[1..]))
  }

  /** The dashboard component's own state. */
  class DashboardView {
    const store: Store
    /** Computed once when the dashboard is mounted and not refreshed afterwards (pages/Dashboard.tsx:70). */
    const dayContent: DayContent
    var timeRemaining: Option<string>
    var journalHistory: seq<JournalEntry>

    constructor (store: Store, user: UserProfile)
      ensures this.store == store
      ensures dayContent == Constants.GetDayContent(CurrentDay(user))
      ensures timeRemaining == None && journalHistory == []
    {
      this.store := store;
      dayContent := Constants.GetDayContent(CurrentDay(user));
      timeRemaining := None;
      journalHistory := [];
    }

    /**
     * `updateTimer` (pages/Dashboard.tsx:91-112) at instant `now`, run once on
     * mount and then every minute.
     */
    method Tick(user: UserProfile, now: int) returns (reported: Option<UserProfile>)
      modifies this, store
      ensures journalHistory == old(journalHistory)
      ensures NextTick(user, now).Idle? ==>
        timeRemaining == None && reported == None && store.user == old(store.user)
      ensures NextTick(user, now).Counting? ==>
        timeRemaining == Some(FormatCountdown(NextTick(user, now).left))
        && reported == None && store.user == old(store.user)
      ensures NextTick(user, now).Unlock? ==>
        && timeRemaining == None
        && reported == Some(old(store.GetUser()).(videoSubmittedToday := false))
        && store.user == Some(Parsed(reported.value))
      ensures store.journal == old(store.journal)
    {
      reported := None;
      if user.videoSubmittedToday && HasTime(user.lastCompletionTime) {
        var nextUnlock := user.lastCompletionTime.value + DayMs;
        var diff := nextUnlock - now;
        if diff > 0 {
          timeRemaining := Some(FormatCountdown(CountdownOf(diff)));
        } else {
          timeRemaining := None;
          var updated := store.UpdateUser(NoChanges.(videoSubmittedToday := Some(false)));
          reported := Some(updated);
        }
      } else {
        timeRemaining := None;
      }
    }

    /**
     * `handleFileChange` (pages/Dashboard.tsx:127-143): with a file chosen, the
     * check-in is stored and reported; without one nothing happens.
     */
    method CheckIn(user: UserProfile, hasFile: bool, now: int) returns (reported: Option<UserProfile>)
      modifies store
      ensures !hasFile ==> reported == None && store.user == old(store.user)
      ensures hasFile ==>
        && reported == Some(old(store.GetUser()).(videoSubmittedToday := true,
             lastCompletedDay := user.lastCompletedDay + 1, lastCompletionTime := Some(now)))
        && store.user == Some(Parsed(reported.value))
      ensures store.journal == old(store.journal)
    {
      reported := None;
      if hasFile {
        var updated := store.UpdateUser(CheckInPatch(user, now));
        reported := Some(updated);
      }
    }

    /**
     * `handleJournalSubmit` (pages/Dashboard.tsx:149-160): save an entry for the
     * current day and show the journal newest first.  When the stored journal
     * does not parse, the save throws and nothing changes (ok is false).
     */
    method SubmitJournal(user: UserProfile, answers: seq<Answer>, now: int) returns (ok: bool)
      modifies this, store
      ensures timeRemaining == old(timeRemaining) && store.user == old(store.user)
      ensures ok <==> old(store.GetJournal()).Some?
      ensures ok ==>
        && store.journal == Some(Parsed(Upsert(old(store.GetJournal()).value, NewEntry(user, now, answers))))
        && journalHistory == SortByDateDesc(Upsert(old(store.GetJournal()).value, NewEntry(user, now, answers)))
        && NewEntry(user, now, answers) in journalHistory
      ensures !ok ==> store.journal == old(store.journal) && journalHistory == old(journalHistory)
    {
      var entry := NewEntry(user, now, answers);
      ok := store.SaveJournal(entry);
      if !ok {
        return;
      }
      var history := store.GetJournal();
      journalHistory := SortByDateDesc(history.value);
      assert entry in multiset(history.value);
    }

    /** Opening the journal tab (pages/Dashboard.tsx:120-125) shows the stored journal newest first. */
    method OpenJournalTab() returns (ok: bool)
      modifies this
      ensures timeRemaining == old(timeRemaining)
      ensures ok <==> store.GetJournal().Some?
      ensures ok ==> journalHistory == SortByDateDesc(store.GetJournal().value)
      ensures !ok ==> journalHistory == old(journalHistory)
    {
      var history := store.GetJournal();
      if history.None? {
        return false;
      }
      journalHistory := SortByDateDesc(history.value);
      return true;
    }
  }
}
