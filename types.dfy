/**
 * The records of the application (types.ts).  Times are integer milliseconds
 * since the epoch; `null` and `undefined` are both `None`.
 */
module Types {
  import opened Wrappers

  /** The single profile record kept per device (types.ts:1-14). */
  datatype UserProfile = UserProfile(
    id: Option<string>,
    name: Option<string>,
    age: Option<int>,
    reason: Option<string>,
    email: Option<string>,
    isAuthenticated: bool,
    hasPaid: bool,
    startDate: Option<int>,
    lastCompletedDay: int,
    lastCompletionTime: Option<int>,
    videoSubmittedToday: bool,
    addictions: Option<seq<string>>)

  /**
   * `Partial<UserProfile>`: every key may be left out (outer `None`).  For the
   * profile's own optional fields a key can also be present and hold nothing
   * (`Some(None)`), which the object spread copies like any other value.
   */
  datatype Patch = Patch(
    id: Option<Option<string>>,
    name: Option<Option<string>>,
    age: Option<Option<int>>,
    reason: Option<Option<string>>,
    email: Option<Option<string>>,
    isAuthenticated: Option<bool>,
    hasPaid: Option<bool>,
    startDate: Option<Option<int>>,
    lastCompletedDay: Option<int>,
    lastCompletionTime: Option<Option<int>>,
    videoSubmittedToday: Option<bool>,
    addictions: Option<Option<seq<string>>>)

  /** The empty object literal `{}`; other patches are written as updates of it. */
  const NoChanges: Patch :=
    Patch(None, None, None, None, None, None, None, None, None, None, None, None)

  /** One question of a journal entry and what the user wrote (types.ts:29-32). */
  datatype Answer = Answer(prompt: string, answer: string)

  /** A daily reflection (types.ts:26-33): the program day it is about and when it was written. */
  datatype JournalEntry = JournalEntry(day: int, date: int, answers: seq<Answer>)

  /** The content shown for one program day (types.ts:16-24). */
  datatype DayContent = DayContent(
    day: int,
    quote: string,
    teachingTitle: string,
    teachingContent: string,
    task: string,
    gitaVerse: string,
    gitaTranslation: string)

  /** The screens of the application (types.ts:35-42). */
  datatype AppState = Landing | Onboarding | Commitment | Auth | Payment | Dashboard

  datatype Icon = Shield | Crown | Award | Trophy

  /** A badge earned on reaching a program day (types.ts:44-49). */
  datatype Milestone = Milestone(day: int, title: string, description: string, icon: Icon)

  /** JavaScript truthiness of an optional string: absent and "" are both false. */
  predicate Truthy(s: Option<string>)
  {
    s.Some? && s.value != ""
  }

  /** JavaScript truthiness of an optional timestamp: absent and 0 are both false. */
  predicate HasTime(t: Option<int>)
  {
    t.Some? && t.value != 0
  }
}
