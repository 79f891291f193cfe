/** The food card: its "expiring soon" flag, status badge, picture and link.
    An expiry is a millisecond timestamp, or none when the date does not
    parse (every comparison with an invalid date is false). */
module FoodCard {

  import opened Wrappers
  import opened Common
  import opened Text

  /** The card flags an item whose expiry is less than three days away,
      including one that has already expired. */
  function CardExpiringSoon(expiry: Option<int>, now: int): (r: bool)
    ensures r <==> expiry.Some? && expiry.value - now < 259_200_000
    ensures r ==> expiry.Some? && expiry.value < now + 259_200_000
    ensures expiry.Some? && expiry.value < now ==> r
  {
    expiry.Some? && expiry.value - now < ExpiringWindowMs
  }

  /** Already-expired items are flagged too. */
  lemma ExpiredIsFlagged(expiry: int, now: int)
    requires expiry < now
    ensures CardExpiringSoon(Some(expiry), now)
  {
  }

  /** Items three days or more away, and unparseable dates, are not flagged. */
  lemma FarOrInvalidNotFlagged(expiry: Option<int>, now: int)
    requires expiry.None? || expiry.value >= now + 259_200_000
    ensures !CardExpiringSoon(expiry, now)
  {
  }

  /** The status badge: the status name with its first letter upper-cased. */
  function StatusBadge(status: FoodStatus): (r: string)
    ensures |r| == |FoodStatusName(status)| > 0
    ensures 'A' <= r[0] <= 'Z' && r[1..] == FoodStatusName(status)[1..]
  {
    Capitalize(FoodStatusName(status))
  }

  lemma StatusBadges()
    ensures StatusBadge(Available) == "Available"
    ensures StatusBadge(Assigned) == "Assigned"
    ensures StatusBadge(FoodStatus.Completed) == "Completed"
  {
    assert FoodStatusName(Available)[1..] == "vailable";
    assert FoodStatusName(Assigned)[1..] == "ssigned";
    assert FoodStatusName(FoodStatus.Completed)[1..] == "ompleted";
  }

  function DefaultImage(): string {
    UnsplashPhoto("1546069901-ba9599a7e63c", "300")
  }

  /** `food.image || default`: a missing or empty image falls back. */
  function CardImage(image: Option<string>): (r: string)
    ensures image.Some? && image.value != "" ==> r == image.value
    ensures image.None? || image.value == "" ==> r == DefaultImage()
  {
    if image.Some? && image.value != "" then image.value else DefaultImage()
  }

  /** The card's own "View Details" link, present only when no action button
      is given. */
  function CardLink(food: FoodItem, hasActionButton: bool): (r: Option<string>)
    ensures r.None? <==> hasActionButton
    ensures r.Some? ==> r.value == FoodUrl(food.id)
  {
    if hasActionButton then None else Some(FoodUrl(food.id))
  }
}
