/**
 * How the store's text comparison of `MM-YYYY` dates relates to the calendar. The store compares
 * the text as it is stored; these lemmas say where that agrees with month order and where not.
 */
module Periods {
  import opened Wrappers
  import opened Entities
  import opened Sql
  import opened Validation
  import opened Postgres

  /** Within one year, text order is month order. */
  lemma SameYearTextOrderIsMonthOrder(a: string, b: string)
    requires IsMonthYear(a) && IsMonthYear(b) && a[3..] == b[3..]
    ensures TextLe(a, b) <==> Month(a) <= Month(b)
  {
    assert a[1..][1..] == a[2..] && b[1..][1..] == b[2..];
    if a[0] == b[0] && a[1] == b[1] {
      assert a[2..] == [a[2]] + a[3..] && b[2..] == [b[2]] + b[3..];
      TextLeReflexive(a[2..]);
    }
  }

  /** Across years the text order is not the calendar: January 2024 sorts before December 2023. */
  lemma TextOrderIsNotChronological()
    ensures TextLe("01-2024", "12-2023") && !TextLe("12-2023", "01-2024")
  {
  }

  /**
   * So a subscription from November 2023 to February 2024 is not counted for January 2024,
   * although the months overlap: "11-2023" sorts after the period's end "01-2024".
   */
  lemma CrossYearOverlapNotCounted()
    ensures var sub := Subscriptions("Spotify", 300, "60601fee-2bf1-4721-ae6f-7636e79a0cba", "11-2023", Some("02-2024"));
      TotalCost(map[1 := sub], CostFilter(None, None, "01-2024", "01-2024")) == 0
  {
    var sub := Subscriptions("Spotify", 300, "60601fee-2bf1-4721-ae6f-7636e79a0cba", "11-2023", Some("02-2024"));
    var f := CostFilter(None, None, "01-2024", "01-2024");
    assert !TextLe("11-2023", "01-2024");
    NoMatchCostsZero(map[1 := sub], f);
  }
}
