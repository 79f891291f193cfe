/** The task card: when it offers to accept or complete a task, what its
    accept handler submits, and its status label and pickup line. */
module TaskCard {

  import opened Wrappers
  import opened Common
  import opened Text

  /** `user?.id`. */
  function UserId(user: Option<User>): Option<string> {
    if user.Some? then Some(user.value.id) else None
  }

  /** The accept button: a loaded card, a pending task and a signed-in
      volunteer. `food` is the card's food-item lookup, none while it is
      loading or when the item is missing; the card then shows only a
      placeholder. */
  function OffersAccept(task: Task, user: Option<User>, food: Option<FoodItem>): (r: bool)
    ensures r <==> food.Some? && task.status == Pending && user.Some? && user.value.role == Volunteer
    ensures r ==> !OffersComplete(task, user, food)
  {
    food.Some? && task.status == Pending && user.Some? && user.value.role == Volunteer
  }

  /** The complete button: a loaded card and an accepted task whose volunteer
      id equals the user's id, where an absent id equals an absent user. */
  function OffersComplete(task: Task, user: Option<User>, food: Option<FoodItem>): (r: bool)
    ensures r ==> food.Some? && task.status == Accepted
    ensures r && user.Some? ==> task.volunteerId == Some(user.value.id)
    ensures r && user.None? ==> task.volunteerId.None?
  {
    food.Some? && task.status == Accepted && task.volunteerId == UserId(user)
  }

  /** While the food item is loading or missing no button is offered. */
  lemma NoButtonsWhileLoading(task: Task, user: Option<User>)
    ensures !OffersAccept(task, user, None) && !OffersComplete(task, user, None)
  {
  }

  /** The two buttons are never shown together. */
  lemma AcceptCompleteExclusive(task: Task, user: Option<User>, food: Option<FoodItem>)
    ensures !(OffersAccept(task, user, food) && OffersComplete(task, user, food))
  {
  }

  /** With nobody signed in, completion is offered exactly on a loaded card
      for an accepted task that has no volunteer. */
  lemma CompleteWithoutUser(task: Task, food: Option<FoodItem>)
    ensures OffersComplete(task, None, food) <==> food.Some? && task.status == Accepted && task.volunteerId.None?
  {
  }

  /** Only the volunteer a task names can be offered to complete it, and only
      once the card has its food item. */
  lemma CompleteOnlyForItsVolunteer(task: Task, user: User, food: Option<FoodItem>)
    ensures OffersComplete(task, Some(user), food) <==>
              food.Some? && task.status == Accepted && task.volunteerId == Some(user.id)
  {
  }

  /** `handleAcceptTask`: the (task id, volunteer id) pair it submits, or
      nothing without a user. */
  function AcceptRequest(task: Task, user: Option<User>): (r: Option<(string, string)>)
    ensures r.None? <==> user.None?
    ensures r.Some? ==> r.value.0 == task.id && r.value.1 == user.value.id
  {
    if user.Some? then Some((task.id, user.value.id)) else None
  }

  /** The scheduled-pickup line: shown on a loaded card exactly when the task
      has a pickup time. */
  function ShowsScheduledPickup(task: Task, food: Option<FoodItem>): (r: bool)
    ensures r <==> food.Some? && task.scheduledPickupTime.Some?
    ensures task.scheduledPickupTime.None? ==> !r
  {
    food.Some? && task.scheduledPickupTime.Some?
  }

  /** The status badge: the status name with its first letter upper-cased. */
  function StatusLabel(status: TaskStatus): (r: string)
    ensures |r| == |TaskStatusName(status)| > 0
    ensures 'A' <= r[0] <= 'Z' && r[1..] == TaskStatusName(status)[1..]
  {
    Capitalize(TaskStatusName(status))
  }

  /** The labels the badge shows, status by status. */
  lemma StatusLabels()
    ensures StatusLabel(Pending) == "Pending"
    ensures StatusLabel(Accepted) == "Accepted"
    ensures StatusLabel(TaskStatus.Completed) == "Completed"
  {
    assert TaskStatusName(Pending)[1..] == "ending";
    assert TaskStatusName(Accepted)[1..] == "ccepted";
    assert TaskStatusName(TaskStatus.Completed)[1..] == "ompleted";
  }
}
