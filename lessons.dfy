/**
 The lesson catalog of the lessons section: the `Lesson` record, the fixed list
 of upcoming lessons, and the card each lesson is shown as, with the
 "to be announced" placeholders for an empty date, time or location.
 */
module Lessons {

  datatype Language = HtmlCss | Python | Java

  datatype Level = Beginner | Intermediate

  datatype Lesson = Lesson(
    id: string,
    title: string,
    language: Language,
    level: Level,
    date: string,
    time: string,
    location: string,
    spotsLeft: int)

  /** The label a language tag shows. */
  function LanguageName(l: Language): (name: string)
    ensures name in {"HTML/CSS", "Python", "Java"}
  {
    match l
    case HtmlCss => "HTML/CSS"
    case Python => "Python"
    case Java => "Java"
  }

  /** The label a level tag shows. */
  function LevelName(l: Level): (name: string)
    ensures name in {"Beginner", "Intermediate"}
  {
    match l
    case Beginner => "Beginner"
    case Intermediate => "Intermediate"
  }

  /** The catalog, in display order. */
  const UpcomingLessons: seq<Lesson> := [
    Lesson("1", "Introductie Webontwikkeling", HtmlCss, Beginner, "", "", "", 15),
    Lesson("2", "Je Eerste Python Programma", Python, Beginner, "", "", "", 12),
    Lesson("3", "Interactieve Websites Bouwen", HtmlCss, Intermediate, "", "", "", 10),
    Lesson("4", "Object-Georiënteerd Programmeren", Java, Beginner, "", "", "", 14),
    Lesson("5", "Datastructuren in Python", Python, Intermediate, "", "", "", 8),
    Lesson("6", "Java Applicatie Ontwikkeling", Java, Intermediate, "", "", "", 11)
  ]

  const DatePlaceholder := "Datum volgt"
  const TimePlaceholder := "Tijd volgt"
  const LocationPlaceholder := "Locatie volgt"

  /** `value || placeholder` on strings: the empty string is the only falsy one. */
  function OrPlaceholder(value: string, placeholder: string): (shown: string)
    ensures value != "" ==> shown == value
    ensures value == "" ==> shown == placeholder
    ensures placeholder != "" ==> shown != ""
  {
    if value != "" then value else placeholder
  }

  /** What one lesson card shows, and the lesson its sign-up button hands on. */
  datatype Card = Card(
    languageTag: string,
    levelTag: string,
    title: string,
    dateText: string,
    timeText: string,
    locationText: string,
    signUpLesson: Lesson)

  function CardOf(l: Lesson): Card {
    Card(LanguageName(l.language), LevelName(l.level), l.title,
         OrPlaceholder(l.date, DatePlaceholder),
         OrPlaceholder(l.time, TimePlaceholder),
         OrPlaceholder(l.location, LocationPlaceholder),
         l)
  }

  /** The lesson list rendered as cards: one per lesson, in catalog order, each
      card's button carrying exactly its own lesson, no detail ever left blank. */
  function Cards(lessons: seq<Lesson>): (cards: seq<Card>)
    ensures |cards| == |lessons|
    ensures forall i | 0 <= i < |lessons| ::
      && cards[i].signUpLesson == lessons[i]
      && cards[i].title == lessons[i].title
      && cards[i].dateText != "" && cards[i].timeText != "" && cards[i].locationText != ""
      && (lessons[i].date != "" ==> cards[i].dateText == lessons[i].date)
      && (lessons[i].time != "" ==> cards[i].timeText == lessons[i].time)
      && (lessons[i].location != "" ==> cards[i].locationText == lessons[i].location)
  {
    seq(|lessons|, i requires 0 <= i < |lessons| => CardOf(lessons[i]))
  }

  /** Six lessons, identified `1` to `6` in order, so no two share an id. */
  lemma CatalogIds()
    ensures |UpcomingLessons| == 6
    ensures forall i | 0 <= i < 6 :: UpcomingLessons[i].id == [('1' as int + i) as char]
    ensures forall i, j | 0 <= i < j < |UpcomingLessons| :: UpcomingLessons[i].id != UpcomingLessons[j].id
  {
    forall i, j | 0 <= i < j < |UpcomingLessons|
      ensures UpcomingLessons[i].id != UpcomingLessons[j].id
    {
      assert UpcomingLessons[i].id[0] != UpcomingLessons[j].id[0];
    }
  }

  /** The places left, in order, and that each is positive. */
  lemma CatalogSpots()
    ensures |UpcomingLessons| == 6
    ensures forall i | 0 <= i < |UpcomingLessons| :: UpcomingLessons[i].spotsLeft > 0
    ensures seq(6, i requires 0 <= i < 6 => UpcomingLessons[i].spotsLeft) == [15, 12, 10, 14, 8, 11]
  {
  }

  /** No catalog entry has a date, time or location yet, so every card shows all
      three placeholders. */
  lemma EveryCardShowsPlaceholders()
    ensures forall i | 0 <= i < |UpcomingLessons| ::
      && Cards(UpcomingLessons)[i].dateText == DatePlaceholder
      && Cards(UpcomingLessons)[i].timeText == TimePlaceholder
      && Cards(UpcomingLessons)[i].locationText == LocationPlaceholder
  {
    forall i | 0 <= i < |UpcomingLessons|
      ensures Cards(UpcomingLessons)[i] == CardOf(UpcomingLessons[i])
    {
    }
  }
}
