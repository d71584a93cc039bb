/** Static program content (constants.ts): the milestone table and the per-day content. */
module Constants {
  import opened Types
  import Decimal

  /** Length of the program in days. */
  const ProgramDays: int := 108

  /** The badges, in the order they are earned (constants.ts:13-18). */
  const Milestones: seq<Milestone> := [
    Milestone(7, "Purification Warrior", "First Week of Detox", Shield),
    Milestone(37, "Energy Master", "Habits Broken", Crown),
    Milestone(79, "Transformation Guardian", "New Identity Formed", Award),
    Milestone(108, "Sacred Completion", "Master of Senses", Trophy)
  ]

  /** The milestone days strictly increase and the last one closes the program. */
  lemma MilestonesOrdered()
    ensures |Milestones| == 4
    ensures forall i, j :: 0 <= i < j < |Milestones| ==> Milestones[i].day < Milestones[j].day
    ensures Milestones[|Milestones| - 1].day == ProgramDays
    ensures forall i :: 0 <= i < |Milestones| ==> 0 < Milestones[i].day <= ProgramDays
  {
  }

  /** The content of day 1 (constants.ts:31-38). */
  const DayOne: DayContent := DayContent(
    1,
    "The first step to purity is the hardest, but the most sacred.",
    "The Sankalpa (संकल्प)",
    "Today you take a vow to detox your body and mind. Whether it is smoke, drink, or loss of vital energy, acknowledge that these habits no longer serve your higher purpose.",
    "Throw away any remnants of your bad habits (packets, bottles, triggers).",
    "कर्मण्येवाधिकारस्ते मा फलेषु कदाचन",
    "You have a right to perform your prescribed duties, but you are not entitled to the fruits of your actions.")

  /** The content of day 7 (constants.ts:39-46). */
  const DaySeven: DayContent := DayContent(
    7,
    "Discipline is the fire that burns away impurities.",
    "The First Week (पहला सप्ताह)",
    "Your body is starting to heal. You may feel withdrawal or restlessness. This is a sign that the toxins are leaving your system. Stay strong.",
    "Drink 3 liters of water today to flush out toxins.",
    "क्रोधाद्भवति सम्मोह: सम्मोहात्स्मृतिविभ्रम:",
    "From anger, delusion arises, and from delusion, bewilderment of memory.")

  const GenericQuote: string := "He who controls his senses conquers the world."
  const GenericTeaching: string := "Every time you say 'No' to a craving, you are saying 'Yes' to your higher self. Transmute that energy into strength."
  const GenericTask: string := "Practice 5 minutes of deep breathing (Pranayama) when cravings hit."
  const GenericVerse: string := "संनियम्येन्द्रियग्रामं सर्वत्र समबुद्धयः"
  const GenericTranslation: string := "Having restrained the cluster of senses, being equal-minded everywhere, they rejoice in the welfare of all beings."

  /** The table of days that have their own content (constants.ts:30-48). */
  const SpecialDays: map<int, DayContent> := map[1 := DayOne, 7 := DaySeven]

  /** The title generated for a day without its own content (constants.ts:66). */
  function GenericTitle(day: int): (r: string)
    ensures |r| == |Decimal.IntToString(day)| + 17
    ensures r[..4] == "Day " && r[|r| - 13..] == " Purification"
    ensures r[4..|r| - 13] == Decimal.IntToString(day)
  {
    "Day " + Decimal.IntToString(day) + " Purification"
  }

  /**
   * The content of a program day (constants.ts:29-72): the day's own entry if
   * the table has one, the generic entry otherwise; either way stamped with `day`.
   */
  function GetDayContent(day: int): (r: DayContent)
    ensures r.day == day
    ensures day in SpecialDays ==> r == SpecialDays[day].(day := day)
    ensures day !in SpecialDays ==> r.quote == GenericQuote && r.teachingTitle == GenericTitle(day)
  {
    if day in SpecialDays then
      var c := SpecialDays[day];
      DayContent(day, c.quote, c.teachingTitle, c.teachingContent, c.task, c.gitaVerse, c.gitaTranslation)
    else
      DayContent(day, GenericQuote, GenericTitle(day), GenericTeaching, GenericTask, GenericVerse, GenericTranslation)
  }

  /** Exactly days 1 and 7 have their own content, and it is theirs: quote, task and verse. */
  lemma SpecialDaysContent(day: int)
    ensures (day == 1 || day == 7) <==> GetDayContent(day).quote != GenericQuote
    ensures GetDayContent(1) == DayOne && GetDayContent(7) == DaySeven
    ensures day != 1 && day != 7 ==> GetDayContent(day).task == GenericTask && GetDayContent(day).gitaVerse == GenericVerse
  {
  }

  /** Every generic day gets a title of its own: the title determines the day. */
  lemma GenericTitlesDistinct(a: int, b: int)
    requires a !in SpecialDays && b !in SpecialDays
    ensures GetDayContent(a).teachingTitle == GetDayContent(b).teachingTitle ==> a == b
  {
    var ta, tb := GenericTitle(a), GenericTitle(b);
    if ta == tb {
      var sa, sb := Decimal.IntToString(a), Decimal.IntToString(b);
      assert ta == "Day " + sa + " Purification";
      assert |sa| == |sb|;
      assert sa == ta[4..4 + |sa|];
      assert sb == tb[4..4 + |sb|];
      Decimal.IntToStringInjective(a, b);
    }
  }
}
