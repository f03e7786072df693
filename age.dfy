/**
 * `calculateAgeFrontend`: a player's age in whole years, from the birth date
 * typed into form A2 and today's date. Dates are (year, month, day) triples as
 * `getFullYear`, `getMonth` and `getDate` return them; only differences of
 * months and comparisons of days are used, so the month numbering does not
 * matter.
 */
module Age {
  import opened Wrappers

  datatype Date = Date(year: int, month: int, day: int)

  /** Lexicographic order on (year, month, day). */
  predicate OnOrBefore(a: Date, b: Date) {
    a.year < b.year
    || (a.year == b.year && (a.month < b.month || (a.month == b.month && a.day <= b.day)))
  }

  /** The `k`-th anniversary of `birth` has arrived by `today`. */
  predicate AnniversaryReached(birth: Date, today: Date, k: int) {
    OnOrBefore(Date(birth.year + k, birth.month, birth.day), today)
  }

  /** Today's (month, day) comes strictly before the birthday's. */
  predicate BeforeBirthday(birth: Date, today: Date) {
    var monthDifference := today.month - birth.month;
    monthDifference < 0 || (monthDifference == 0 && today.day < birth.day)
  }

  /** `None` is the empty birth-date string, for which the age is 0. Otherwise
      the age is the number of the last anniversary reached: the year
      difference, less one while this year's birthday is still ahead. */
  function AgeFrontend(birth: Option<Date>, today: Date): (age: int)
    ensures birth.None? ==> age == 0
    ensures birth.Some? ==> AnniversaryReached(birth.value, today, age)
                            && !AnniversaryReached(birth.value, today, age + 1)
    ensures birth.Some? ==> var diff := today.year - birth.value.year;
                            (age == diff - 1 <==> BeforeBirthday(birth.value, today))
                            && (age == diff || age == diff - 1)
  {
    match birth
    case None => 0
    case Some(b) =>
      var age := today.year - b.year;
      if BeforeBirthday(b, today) then age - 1 else age
  }

  /** Anniversaries are reached in order: once the `k`-th has come, so have
      all earlier ones. */
  lemma {:induction false} AnniversariesInOrder(birth: Date, today: Date, j: int, k: int)
    requires j <= k && AnniversaryReached(birth, today, k)
    ensures AnniversaryReached(birth, today, j)
  {
  }

  /** The age is the only count of whole years that fits: any `k` whose
      anniversary has come while the next has not equals the computed age. */
  lemma {:induction false} AgeIsCompletedYears(birth: Date, today: Date, k: int)
    requires AnniversaryReached(birth, today, k) && !AnniversaryReached(birth, today, k + 1)
    ensures AgeFrontend(Some(birth), today) == k
  {
    var age := AgeFrontend(Some(birth), today);
    if k < age {
      AnniversariesInOrder(birth, today, k + 1, age);
    } else if age < k {
      AnniversariesInOrder(birth, today, age + 1, k);
    }
  }

  /** A birth date that is not after today gives an age that is not negative. */
  lemma {:induction false} AgeNotNegative(birth: Date, today: Date)
    requires OnOrBefore(birth, today)
    ensures AgeFrontend(Some(birth), today) >= 0
  {
    assert AnniversaryReached(birth, today, 0) by {
      assert Date(birth.year + 0, birth.month, birth.day) == birth;
    }
    if AgeFrontend(Some(birth), today) < 0 {
      AnniversariesInOrder(birth, today, AgeFrontend(Some(birth), today) + 1, 0);
    }
  }
}
