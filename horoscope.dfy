/**
 * The zodiac sign of a birth date (src/services/horoscope.py): a fixed chain of
 * range tests on month and day, with the two sign tables beside it. The code
 * passes signs around as their Latin key strings ("aries", …); here a sign is
 * an enumeration and `Key` gives that string.
 */
module Horoscope {
  import opened Wrappers

  datatype Sign =
    | Aries | Taurus | Gemini | Cancer | Leo | Virgo
    | Libra | Scorpio | Sagittarius | Capricorn | Aquarius | Pisces
  {
    /** The sign's key in `ZODIAC_SIGNS` and `RUS_SIGNS`. */
    function Key(): string
    {
      match this
      case Aries => "aries"
      case Taurus => "taurus"
      case Gemini => "gemini"
      case Cancer => "cancer"
      case Leo => "leo"
      case Virgo => "virgo"
      case Libra => "libra"
      case Scorpio => "scorpio"
      case Sagittarius => "sagittarius"
      case Capricorn => "capricorn"
      case Aquarius => "aquarius"
      case Pisces => "pisces"
    }

    /** `RUS_SIGNS[key]`. */
    function RusName(): string
    {
      match this
      case Aries => "Овен"
      case Taurus => "Телец"
      case Gemini => "Близнецы"
      case Cancer => "Рак"
      case Leo => "Лев"
      case Virgo => "Дева"
      case Libra => "Весы"
      case Scorpio => "Скорпион"
      case Sagittarius => "Стрелец"
      case Capricorn => "Козерог"
      case Aquarius => "Водолей"
      case Pisces => "Рыбы"
    }

    /** `ZODIAC_SIGNS[key]`: the (month, day) the sign's season starts. */
    function Start(): (int, int)
    {
      match this
      case Aries => (3, 21)
      case Taurus => (4, 20)
      case Gemini => (5, 21)
      case Cancer => (6, 21)
      case Leo => (7, 23)
      case Virgo => (8, 23)
      case Libra => (9, 23)
      case Scorpio => (10, 23)
      case Sagittarius => (11, 22)
      case Capricorn => (12, 22)
      case Aquarius => (1, 20)
      case Pisces => (2, 19)
    }

    /** The next entry of the tables, cyclically. */
    function Next(): Sign
    {
      match this
      case Aries => Taurus
      case Taurus => Gemini
      case Gemini => Cancer
      case Cancer => Leo
      case Leo => Virgo
      case Virgo => Libra
      case Libra => Scorpio
      case Scorpio => Sagittarius
      case Sagittarius => Capricorn
      case Capricorn => Aquarius
      case Aquarius => Pisces
      case Pisces => Aries
    }
  }

  /** The tables' key order, which is also the order `RUS_SIGNS.items()` walks. */
  const Signs: seq<Sign> := [
    Aries, Taurus, Gemini, Cancer, Leo, Virgo,
    Libra, Scorpio, Sagittarius, Capricorn, Aquarius, Pisces]

  /** `Next` follows the tables' order and wraps from the last entry to the first. */
  lemma NextFollowsOrder()
    ensures |Signs| == 12
    ensures forall i :: 0 <= i < |Signs| - 1 ==> Signs[i].Next() == Signs[i + 1]
    ensures Signs[|Signs| - 1].Next() == Signs[0]
    ensures forall s: Sign :: s in Signs
  {
    forall s: Sign ensures s in Signs {
      match s
      case Aries => assert Signs[0] == s;
      case Taurus => assert Signs[1] == s;
      case Gemini => assert Signs[2] == s;
      case Cancer => assert Signs[3] == s;
      case Leo => assert Signs[4] == s;
      case Virgo => assert Signs[5] == s;
      case Libra => assert Signs[6] == s;
      case Scorpio => assert Signs[7] == s;
      case Sagittarius => assert Signs[8] == s;
      case Capricorn => assert Signs[9] == s;
      case Aquarius => assert Signs[10] == s;
      case Pisces => assert Signs[11] == s;
    }
  }

  /** The key strings of distinct signs differ, so each names one dict entry. */
  lemma KeyInjective(s: Sign, t: Sign)
    requires s.Key() == t.Key()
    ensures s == t
  {
  }

  /** The sign a key string names, if any: the way a key read back from a string decodes. */
  function SignOfKey(key: string): (r: Option<Sign>)
    ensures r.Some? ==> r.value.Key() == key
  {
    if key == "aries" then Some(Aries)
    else if key == "taurus" then Some(Taurus)
    else if key == "gemini" then Some(Gemini)
    else if key == "cancer" then Some(Cancer)
    else if key == "leo" then Some(Leo)
    else if key == "virgo" then Some(Virgo)
    else if key == "libra" then Some(Libra)
    else if key == "scorpio" then Some(Scorpio)
    else if key == "sagittarius" then Some(Sagittarius)
    else if key == "capricorn" then Some(Capricorn)
    else if key == "aquarius" then Some(Aquarius)
    else if key == "pisces" then Some(Pisces)
    else None
  }

  lemma SignOfKeyRoundTrip(s: Sign)
    ensures SignOfKey(s.Key()) == Some(s)
  {
  }

  /** `get_zodiac_sign`: only the month and the day of the date are read. */
  function ZodiacSign(month: int, day: int): Sign
  {
    if (month == 3 && day >= 21) || (month == 4 && day <= 19) then Aries
    else if (month == 4 && day >= 20) || (month == 5 && day <= 20) then Taurus
    else if (month == 5 && day >= 21) || (month == 6 && day <= 20) then Gemini
    else if (month == 6 && day >= 21) || (month == 7 && day <= 22) then Cancer
    else if (month == 7 && day >= 23) || (month == 8 && day <= 22) then Leo
    else if (month == 8 && day >= 23) || (month == 9 && day <= 22) then Virgo
    else if (month == 9 && day >= 23) || (month == 10 && day <= 22) then Libra
    else if (month == 10 && day >= 23) || (month == 11 && day <= 21) then Scorpio
    else if (month == 11 && day >= 22) || (month == 12 && day <= 21) then Sagittarius
    else if (month == 12 && day >= 22) || (month == 1 && day <= 19) then Capricorn
    else if (month == 1 && day >= 20) || (month == 2 && day <= 18) then Aquarius
    else Pisces
  }

  /** Calendar order on (month, day) pairs. */
  predicate NotBefore(m: int, d: int, start: (int, int))
  {
    m > start.0 || (m == start.0 && d >= start.1)
  }

  /**
   * (month, day) lies in the season of `s`: on or after its start and before
   * the next sign's start, cyclically (only capricorn's season runs over the
   * new year).
   */
  predicate InSeason(s: Sign, m: int, d: int)
  {
    var from := s.Start();
    var until := s.Next().Start();
    if NotBefore(until.0, until.1, from) then NotBefore(m, d, from) && !NotBefore(m, d, until)
    else NotBefore(m, d, from) || !NotBefore(m, d, until)
  }

  /**
   * The chain of tests agrees with the start-date table: for every day of
   * every month, the sign returned is exactly the one whose season holds it.
   */
  lemma ZodiacSignMatchesTable(m: int, d: int, s: Sign)
    requires 1 <= m <= 12 && 1 <= d <= 31
    ensures InSeason(s, m, d) <==> ZodiacSign(m, d) == s
  {
  }

  /** Each start date of `ZODIAC_SIGNS` maps to its own sign. */
  lemma StartDateOwnSign(s: Sign)
    ensures ZodiacSign(s.Start().0, s.Start().1) == s
  {
  }

  /** The day before each start date maps to the previous sign in the tables' cyclic order. */
  lemma DayBeforeStartPreviousSign(s: Sign)
    ensures ZodiacSign(s.Next().Start().0, s.Next().Start().1 - 1) == s
  {
  }

  lemma SignExamples()
    ensures ZodiacSign(3, 20) == Pisces
    ensures ZodiacSign(1, 19) == Capricorn
    ensures ZodiacSign(2, 18) == Aquarius
    ensures ZodiacSign(13, 5) == Pisces
  {
  }
}
