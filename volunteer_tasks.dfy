/** The volunteer dashboard's three tabs: the open tasks of everyone, and the
    signed-in volunteer's accepted and completed tasks, with their count
    badges. */
module VolunteerTasks {

  import opened Wrappers
  import opened Common
  import opened Seqs

  function IsPending(t: Task): bool { t.status == Pending }

  function IsAccepted(t: Task): bool { t.status == Accepted }

  function IsCompleted(t: Task): bool { t.status == TaskStatus.Completed }

  /** The volunteer query runs only for a user with a non-empty id
      (`enabled: !!user?.id`); while it is disabled it has no data. */
  function VolunteerTasksData(userId: Option<string>, fetched: seq<Task>): (r: Option<seq<Task>>)
    ensures r.Some? <==> userId.Some? && userId.value != ""
    ensures r.Some? ==> r.value == fetched
  {
    if userId.Some? && userId.value != "" then Some(fetched) else None
  }

  /** The tab of open tasks: every pending task, in query order. */
  function PendingTasks(allTasks: Option<seq<Task>>): (r: seq<Task>)
    ensures allTasks.None? ==> r == []
    ensures allTasks.Some? ==> IsSubseq(r, allTasks.value)
    ensures allTasks.Some? ==> forall t :: t in r <==> t in allTasks.value && t.status == Pending
  {
    match allTasks
    case None => []
    case Some(ts) =>
      FilterIsSubseq(ts, IsPending);
      Filter(ts, IsPending)
  }

  /** The "My Tasks" tab: the volunteer's accepted tasks. */
  function AcceptedTasks(volunteerTasks: Option<seq<Task>>): (r: seq<Task>)
    ensures volunteerTasks.None? ==> r == []
    ensures volunteerTasks.Some? ==> IsSubseq(r, volunteerTasks.value)
    ensures volunteerTasks.Some? ==> forall t :: t in r <==> t in volunteerTasks.value && t.status == Accepted
  {
    match volunteerTasks
    case None => []
    case Some(ts) =>
      FilterIsSubseq(ts, IsAccepted);
      Filter(ts, IsAccepted)
  }

  /** The "Completed" tab: the volunteer's completed tasks. */
  function CompletedTasks(volunteerTasks: Option<seq<Task>>): (r: seq<Task>)
    ensures volunteerTasks.None? ==> r == []
    ensures volunteerTasks.Some? ==> IsSubseq(r, volunteerTasks.value)
    ensures volunteerTasks.Some? ==> forall t :: t in r <==> t in volunteerTasks.value && t.status == TaskStatus.Completed
  {
    match volunteerTasks
    case None => []
    case Some(ts) =>
      FilterIsSubseq(ts, IsCompleted);
      Filter(ts, IsCompleted)
  }

  /** No task is on both of the volunteer's tabs, and together they hold at
      most the volunteer's tasks. */
  lemma VolunteerTabsDisjoint(volunteerTasks: Option<seq<Task>>)
    ensures forall t :: !(t in AcceptedTasks(volunteerTasks) && t in CompletedTasks(volunteerTasks))
    ensures volunteerTasks.Some? ==>
              |AcceptedTasks(volunteerTasks)| + |CompletedTasks(volunteerTasks)| <= |volunteerTasks.value|
  {
    if volunteerTasks.Some? {
      FilterExclusiveBound(volunteerTasks.value, IsAccepted, IsCompleted);
    }
  }

  /** Without a usable user id the volunteer's tabs are empty, whatever a
      query would have returned. */
  lemma NoUserEmptyTabs(userId: Option<string>, fetched: seq<Task>)
    requires userId.None? || userId == Some("")
    ensures AcceptedTasks(VolunteerTasksData(userId, fetched)) == []
    ensures CompletedTasks(VolunteerTasksData(userId, fetched)) == []
  {
  }

  /** A tab's badge: its list's length, shown only when the list is not empty. */
  function Badge(tasks: seq<Task>): (r: Option<nat>)
    ensures r.Some? <==> tasks != []
    ensures r.Some? ==> r.value == |tasks| && r.value > 0
  {
    if |tasks| > 0 then Some(|tasks|) else None
  }
}
