/** The food details page: the expiry classification, the task shown with
    the item, the accept handler and the two action panels. */
module FoodDetails {

  import opened Wrappers
  import opened Common
  import FoodCard

  /** `calculateExpiryStatus`. An unparseable date is neither expired nor
      expiring. */
  datatype ExpiryStatus = ExpiryStatus(isExpired: bool, isExpiringSoon: bool)

  function CalculateExpiryStatus(expiry: Option<int>, now: int): (r: ExpiryStatus)
    ensures !(r.isExpired && r.isExpiringSoon)
    ensures r.isExpired ==> expiry.Some? && expiry.value < now
    ensures r.isExpiringSoon ==> expiry.Some? && now < expiry.value < now + 259_200_000
  {
    match expiry
    case None => ExpiryStatus(false, false)
    case Some(e) => ExpiryStatus(e < now, e - now < ExpiringWindowMs && e > now)
  }

  /** Expired means strictly before now; expiring soon means strictly after
      now and less than three days away. */
  lemma ExpiryClassification(expiry: Option<int>, now: int)
    ensures CalculateExpiryStatus(expiry, now).isExpired <==> expiry.Some? && expiry.value < now
    ensures CalculateExpiryStatus(expiry, now).isExpiringSoon <==>
              expiry.Some? && now < expiry.value < now + 259_200_000
  {
  }

  /** The two flags exclude each other, and an item expiring right now has
      neither. */
  lemma ExpiryFlagsExclusive(expiry: Option<int>, now: int)
    ensures !(CalculateExpiryStatus(expiry, now).isExpired && CalculateExpiryStatus(expiry, now).isExpiringSoon)
    ensures expiry == Some(now) ==> CalculateExpiryStatus(expiry, now) == ExpiryStatus(false, false)
  {
  }

  /** The details page flags fewer items than the card: whatever it calls
      expiring soon the card does too, and the card also flags expired ones. */
  lemma DetailsFlagsFewerThanCard(expiry: Option<int>, now: int)
    ensures CalculateExpiryStatus(expiry, now).isExpiringSoon ==> FoodCard.CardExpiringSoon(expiry, now)
    ensures CalculateExpiryStatus(expiry, now).isExpired ==> FoodCard.CardExpiringSoon(expiry, now)
  {
  }

  /** `relatedTask`: the first task row fetched for the item, copied field
      for field, or none when the list is absent or empty. */
  function RelatedTask(tasks: Option<seq<Task>>): (r: Option<Task>)
    ensures r.None? <==> tasks.None? || tasks.value == []
    ensures r.Some? ==> r.value == tasks.value[0]
  {
    if tasks.Some? && |tasks.value| > 0 then Some(tasks.value[0]) else None
  }

  /** `handleAcceptTask`: the (task id, volunteer id) it submits; nothing
      without a user or a related task. */
  function AcceptRequest(user: Option<User>, related: Option<Task>): (r: Option<(string, string)>)
    ensures r.None? <==> user.None? || related.None?
    ensures r.Some? ==> r.value.0 == related.value.id && r.value.1 == user.value.id
  {
    if user.None? || related.None? then None else Some((related.value.id, user.value.id))
  }

  /** The volunteer panel: a signed-in volunteer and an available item, so
      never together with the assigned panel. */
  function ShowsVolunteerPanel(user: Option<User>, item: FoodItem): (r: bool)
    ensures r <==> user.Some? && user.value.role == Volunteer && !ShowsAssignedPanel(item)
  {
    user.Some? && user.value.role == Volunteer && item.status == Available
  }

  /** The assigned/completed panel: shown for every item that is no longer
      available. */
  function ShowsAssignedPanel(item: FoodItem): (r: bool)
    ensures r <==> item.status != Available
  {
    item.status == Assigned || item.status == FoodStatus.Completed
  }

  /** At most one panel is shown, and for a volunteer exactly one. */
  lemma PanelsExclusive(user: Option<User>, item: FoodItem)
    ensures !(ShowsVolunteerPanel(user, item) && ShowsAssignedPanel(item))
    ensures user.Some? && user.value.role == Volunteer ==> ShowsVolunteerPanel(user, item) || ShowsAssignedPanel(item)
  {
  }
}
