/** The store-backed service: the task transitions as ordered writes to the
    `tasks`, `food_items` and `notifications` tables, each of which may fail,
    the notification queries, and the mapping of `food_items` rows (with the
    donor's profile name) to food items. Tables are maps keyed by row id; the
    notifications table is an ordered sequence of rows. Store-generated values
    (the new notification's id, the clock, "tomorrow") are parameters. */
module SupabaseService {

  import opened Wrappers
  import opened Common
  import opened Seqs

  /** A `food_items` row: the description may be null, and there is no donor
      name (it lives in `profiles`). */
  datatype FoodRow = FoodRow(
    id: string,
    title: string,
    description: Option<string>,
    quantity: string,
    foodType: string,
    expiryDate: string,
    pickupLocation: string,
    pickupTimeFrom: string,
    pickupTimeTo: string,
    status: FoodStatus,
    donorId: string,
    createdAt: int,
    image: Option<string>)

  /** A `profiles` row as the donor-name query selects it. */
  datatype Profile = Profile(id: string, name: string)

  /** Which of the store calls a transition makes report an error. */
  datatype Faults = Faults(taskWrite: bool, foodWrite: bool, foodRead: bool, notificationInsert: bool)

  // ---------------------------------------------------------------------------
  // Row mappings.

  /** `task.volunteer_id || undefined`: an empty id reads as absent. */
  function MapTask(t: Task): (r: Task)
    ensures r.id == t.id && r.foodItemId == t.foodItemId && r.status == t.status
    ensures r.createdAt == t.createdAt && r.scheduledPickupTime == t.scheduledPickupTime
    ensures r.volunteerId.None? <==> t.volunteerId.None? || t.volunteerId == Some("")
    ensures r.volunteerId.Some? ==> r.volunteerId == t.volunteerId
  {
    t.(volunteerId := if t.volunteerId == Some("") then None else t.volunteerId)
  }

  /** `notification.action_url || undefined`: an empty link reads as absent. */
  function MapNotification(n: Notification): (r: Notification)
    ensures r.id == n.id && r.userId == n.userId && r.message == n.message && r.read == n.read
    ensures r.createdAt == n.createdAt && r.kind == n.kind
    ensures r.actionUrl.None? <==> n.actionUrl.None? || n.actionUrl == Some("")
    ensures r.actionUrl.Some? ==> r.actionUrl == n.actionUrl
  {
    n.(actionUrl := if n.actionUrl == Some("") then None else n.actionUrl)
  }

  /** A row as a food item, with the given donor name; a null description
      becomes the empty string. */
  function MapFoodRow(row: FoodRow, donorName: string): (r: FoodItem)
    ensures r.id == row.id && r.title == row.title && r.status == row.status
    ensures r.donorId == row.donorId && r.donorName == donorName && r.createdAt == row.createdAt
    ensures r.description == if row.description.Some? then row.description.value else ""
  {
    FoodItem(row.id, row.title, if row.description.Some? then row.description.value else "",
             row.quantity, row.foodType, row.expiryDate, row.pickupLocation, row.pickupTimeFrom,
             row.pickupTimeTo, row.status, row.donorId, donorName, row.createdAt, row.image)
  }

  function RowDonorId(row: FoodRow): string { row.donorId }

  /** `[...new Set(data.map(item => item.donor_id))]`. */
  function DonorIds(rows: seq<FoodRow>): (r: seq<string>)
    ensures Distinct(r)
    ensures forall id :: id in r <==> exists i :: 0 <= i < |rows| && rows[i].donorId == id
  {
    DistinctImage(rows, RowDonorId)
  }

  /** The `donorMap` the profile rows fill in order: a later row with the same
      id overwrites an earlier one. */
  function DonorMap(donors: seq<Profile>): (r: map<string, string>)
    ensures forall id :: id in r <==> exists p :: p in donors && p.id == id
    ensures forall id :: id in r ==> Profile(id, r[id]) in donors
    ensures donors != [] ==> r[donors[|donors| - 1].id] == donors[|donors| - 1].name
  {
    if donors == [] then map[]
    else
      var init := donors[..|donors| - 1];
      var last := donors[|donors| - 1];
      assert donors == init + [last];
      DonorMap(init)[last.id := last.name]
  }

  /** `donorMap.get(id) || "Unknown Donor"`: an unknown id or an empty name
      falls back. */
  function ListedDonorName(donorMap: map<string, string>, id: string): (r: string)
    ensures r != ""
    ensures id in donorMap && donorMap[id] != "" ==> r == donorMap[id]
    ensures id !in donorMap ==> r == "Unknown Donor"
  {
    if id in donorMap && donorMap[id] != "" then donorMap[id] else "Unknown Donor"
  }

  /** `getFoodItems` after its two queries: `rows` is the ordered `food_items`
      result (or its error), `donors` the profile query's data (absent when
      that query failed, which is not an error). */
  function GetFoodItems(rows: Result<seq<FoodRow>, StoreError>, donors: Option<seq<Profile>>): (r: Result<seq<FoodItem>, StoreError>)
    ensures rows.Err? ==> r == Err(rows.error)
    ensures rows.Ok? ==> r.Ok? && |r.value| == |rows.value|
    ensures rows.Ok? ==> forall i :: 0 <= i < |rows.value| ==>
              r.value[i] == MapFoodRow(rows.value[i], r.value[i].donorName) &&
              (r.value[i].donorName == "Unknown Donor" ||
               (donors.Some? && Profile(rows.value[i].donorId, r.value[i].donorName) in donors.value))
    ensures rows.Ok? && donors.None? ==> forall i :: 0 <= i < |r.value| ==> r.value[i].donorName == "Unknown Donor"
  {
    match rows
    case Err(e) => Err(e)
    case Ok(rs) =>
      var dm := if donors.Some? then DonorMap(donors.value) else map[];
      Ok(MapSeq(rs, (row: FoodRow) => MapFoodRow(row, ListedDonorName(dm, row.donorId))))
  }

  /** The profile rows the `.in('id', donorIds)` query returns. */
  function ProfilesWithIds(profiles: map<string, string>, ids: seq<string>): (r: seq<Profile>)
    ensures forall p :: p in r <==> p.id in ids && p.id in profiles && p.name == profiles[p.id]
  {
    if ids == [] then []
    else
      var rest := ProfilesWithIds(profiles, ids[1..]);
      assert forall id :: id in ids <==> id == ids[0] || id in ids[1..];
      if ids[0] in profiles then [Profile(ids[0], profiles[ids[0]])] + rest else rest
  }

  /** The list's donor name end to end: the profile name when the donor has a
      profile with a non-empty name, otherwise "Unknown Donor". */
  lemma ListedNameFromProfiles(rows: seq<FoodRow>, profiles: map<string, string>, i: nat)
    requires i < |rows|
    ensures var r := GetFoodItems(Ok(rows), Some(ProfilesWithIds(profiles, DonorIds(rows))));
            r.value[i].donorName ==
              if rows[i].donorId in profiles && profiles[rows[i].donorId] != "" then profiles[rows[i].donorId]
              else "Unknown Donor"
  {
    var donors := ProfilesWithIds(profiles, DonorIds(rows));
    var dm := DonorMap(donors);
    var id := rows[i].donorId;
    assert id in DonorIds(rows);
    if id in profiles {
      assert Profile(id, profiles[id]) in donors;
      assert id in dm;
      assert Profile(id, dm[id]) in donors;
    }
  }

  // ---------------------------------------------------------------------------
  // The paired status of tasks and food items in the tables.

  /** Every task's food item exists and has the status paired with the
      task's, and no two tasks share a food item. */
  ghost predicate TablesPaired(items: map<string, FoodRow>, tasks: map<string, Task>) {
    (forall id :: id in tasks ==>
       (tasks[id].foodItemId in items && items[tasks[id].foodItemId].status == PairedFoodStatus(tasks[id].status))) &&
    (forall a, b :: a in tasks && b in tasks && tasks[a].foodItemId == tasks[b].foodItemId ==> a == b)
  }

  /** `update({ status }).eq('id', id)`: no matching row is not an error. */
  function WriteFoodStatus(items: map<string, FoodRow>, id: string, s: FoodStatus): (r: map<string, FoodRow>)
    ensures r.Keys == items.Keys
    ensures id in items ==> r[id] == items[id].(status := s)
    ensures forall k :: k in items && k != id ==> r[k] == items[k]
  {
    if id in items then items[id := items[id].(status := s)] else items
  }

  /** Both writes of a transition keep the pairing. */
  lemma BothWritesKeepPaired(items: map<string, FoodRow>, tasks: map<string, Task>, taskId: string, t: Task)
    requires TablesPaired(items, tasks) && taskId in tasks && t.foodItemId == tasks[taskId].foodItemId
    ensures TablesPaired(WriteFoodStatus(items, t.foodItemId, PairedFoodStatus(t.status)), tasks[taskId := t])
  {
    var items' := WriteFoodStatus(items, t.foodItemId, PairedFoodStatus(t.status));
    var tasks' := tasks[taskId := t];
    forall id | id in tasks'
      ensures tasks'[id].foodItemId in items' && items'[tasks'[id].foodItemId].status == PairedFoodStatus(tasks'[id].status)
    {
      if id != taskId {
        assert tasks'[id] == tasks[id];
        assert tasks[id].foodItemId != tasks[taskId].foodItemId;
      }
    }
  }

  /** The task write alone, when it moves the task to a status paired with a
      different food status, breaks the pairing. */
  lemma TaskWriteAloneBreaksPaired(items: map<string, FoodRow>, tasks: map<string, Task>, taskId: string, t: Task)
    requires TablesPaired(items, tasks) && taskId in tasks && t.foodItemId == tasks[taskId].foodItemId
    requires PairedFoodStatus(t.status) != PairedFoodStatus(tasks[taskId].status)
    ensures !TablesPaired(items, tasks[taskId := t])
  {
    assert tasks[taskId := t][taskId] == t;
  }

  // ---------------------------------------------------------------------------
  // Notification reads.

  function NotificationCreatedAt(n: Notification): int { n.createdAt }

  function NotificationForUser(userId: string): Notification -> bool {
    (n: Notification) => n.userId == userId
  }

  /** `update({ read: true }).eq('id', id)`: every row with that id. */
  function MarkRead(ns: seq<Notification>, id: string): (r: seq<Notification>)
    ensures |r| == |ns|
    ensures forall i :: 0 <= i < |ns| ==> r[i] == if ns[i].id == id then ns[i].(read := true) else ns[i]
  {
    seq(|ns|, i requires 0 <= i < |ns| => if ns[i].id == id then ns[i].(read := true) else ns[i])
  }

  /** Marking twice is marking once. */
  lemma MarkReadIdempotent(ns: seq<Notification>, id: string)
    ensures MarkRead(MarkRead(ns, id), id) == MarkRead(ns, id)
  {
  }

  /** Marking an id no row has changes nothing. */
  lemma MarkReadUnknown(ns: seq<Notification>, id: string)
    requires forall i :: 0 <= i < |ns| ==> ns[i].id != id
    ensures MarkRead(ns, id) == ns
  {
  }

  /** After marking, the rows with that id are read; all others are as they were. */
  lemma MarkReadEffect(ns: seq<Notification>, id: string, i: nat)
    requires i < |ns|
    ensures MarkRead(ns, id)[i].read == (ns[i].read || ns[i].id == id)
    ensures MarkRead(ns, id)[i].id == ns[i].id && MarkRead(ns, id)[i].userId == ns[i].userId
  {
  }

  // ---------------------------------------------------------------------------
  // The tables.

  class Backend {
    var foodItems: map<string, FoodRow>
    var tasks: map<string, Task>
    var notifications: seq<Notification>
    var profiles: map<string, string>

    /** Each row is stored under its own id. */
    ghost predicate Valid()
      reads this
    {
      (forall id :: id in foodItems ==> foodItems[id].id == id) &&
      (forall id :: id in tasks ==> tasks[id].id == id)
    }

    constructor (items0: map<string, FoodRow>, tasks0: map<string, Task>,
                 notifications0: seq<Notification>, profiles0: map<string, string>)
      requires forall id :: id in items0 ==> items0[id].id == id
      requires forall id :: id in tasks0 ==> tasks0[id].id == id
      ensures Valid()
      ensures foodItems == items0 && tasks == tasks0 && notifications == notifications0 && profiles == profiles0
    {
      foodItems, tasks, notifications, profiles := items0, tasks0, notifications0, profiles0;
    }

    /** `getFoodItemById`: none when the read fails or no row has the id;
        otherwise the row with the donor's profile name, which is kept even
        when empty, or "Unknown Donor" when the profile read finds none. */
    function GetFoodItemById(id: string, readFault: bool, profileFault: bool): (r: Option<FoodItem>)
      requires Valid()
      reads this
      ensures r.Some? <==> !readFault && id in foodItems
      ensures r.Some? ==> r.value == MapFoodRow(foodItems[id], r.value.donorName) && r.value.id == id
      ensures r.Some? ==>
                r.value.donorName ==
                  if !profileFault && foodItems[id].donorId in profiles then profiles[foodItems[id].donorId]
                  else "Unknown Donor"
    {
      if readFault || id !in foodItems then None
      else
        var row := foodItems[id];
        var donor := if !profileFault && row.donorId in profiles then Some(profiles[row.donorId]) else None;
        Some(MapFoodRow(row, if donor.Some? then donor.value else "Unknown Donor"))
    }

    /** `getNotificationsByUser`: the user's rows, newest first. */
    function GetNotificationsByUser(userId: string, fault: bool): (r: Result<seq<Notification>, StoreError>)
      reads this
      ensures r.Ok? <==> !fault
      ensures r.Err? ==> r.error == StoreFailure
      ensures r.Ok? ==> SortedDesc(r.value, NotificationCreatedAt)
      ensures r.Ok? ==> multiset(r.value) == multiset(MapSeq(Filter(notifications, NotificationForUser(userId)), MapNotification))
      ensures r.Ok? ==> forall i :: 0 <= i < |r.value| ==> r.value[i].userId == userId
    {
      if fault then Err(StoreFailure)
      else
        var mine := MapSeq(Filter(notifications, NotificationForUser(userId)), MapNotification);
        var sorted := SortDesc(mine, NotificationCreatedAt);
        assert forall i :: 0 <= i < |sorted| ==> sorted[i].userId == userId by {
          forall i | 0 <= i < |sorted| ensures sorted[i].userId == userId {
            assert sorted[i] in multiset(mine);
            var j :| 0 <= j < |mine| && mine[j] == sorted[i];
          }
        }
        Ok(sorted)
    }

    /** `markNotificationAsRead`: one unconditional write, which may fail. */
    method MarkNotificationAsRead(notificationId: string, fault: bool) returns (error: Option<StoreError>)
      modifies this`notifications
      ensures fault ==> error == Some(StoreFailure) && notifications == old(notifications)
      ensures !fault ==> error == None && notifications == MarkRead(old(notifications), notificationId)
    {
      if fault {
        return Some(StoreFailure);
      }
      notifications := MarkRead(notifications, notificationId);
      error := None;
    }

    /** `acceptTask`: writes the task (volunteer, status accepted, pickup
        "tomorrow") whatever its status was, then the food item, then the
        donor's notification. A failed task write changes nothing; a failed
        food write leaves the task accepted and sends no notification. */
    method AcceptTask(taskId: string, volunteerId: string, now: int, tomorrow: int, newId: string, faults: Faults)
      returns (r: Result<Task, StoreError>)
      requires Valid()
      modifies this`tasks, this`foodItems, this`notifications
      ensures Valid()
      ensures faults.taskWrite || taskId !in old(tasks) ==>
                r == Err(if faults.taskWrite then StoreFailure else NoMatchingRow) &&
                tasks == old(tasks) && foodItems == old(foodItems) && notifications == old(notifications)
      ensures !faults.taskWrite && taskId in old(tasks) ==>
                var t := old(tasks)[taskId].(volunteerId := Some(volunteerId), status := Accepted,
                                             scheduledPickupTime := Some(tomorrow));
                tasks == old(tasks)[taskId := t] &&
                Stepped(old(foodItems), old(notifications), t.foodItemId, Acceptance, now, newId, faults,
                        foodItems, notifications) &&
                r == if faults.foodWrite then Err(StoreFailure) else Ok(MapTask(t))
      ensures old(TablesPaired(foodItems, tasks)) && !faults.foodWrite ==> TablesPaired(foodItems, tasks)
      ensures (old(TablesPaired(foodItems, tasks)) && !faults.taskWrite && faults.foodWrite &&
               taskId in old(tasks) && old(tasks[taskId].status) == Pending) ==> !TablesPaired(foodItems, tasks)
    {
      if faults.taskWrite {
        return Err(StoreFailure);
      }
      if taskId !in tasks {
        return Err(NoMatchingRow);
      }
      var t := tasks[taskId].(volunteerId := Some(volunteerId), status := Accepted,
                              scheduledPickupTime := Some(tomorrow));
      var failed := Advance(taskId, t, Acceptance, now, newId, faults);
      r := if failed then Err(StoreFailure) else Ok(MapTask(t));
    }

    /** `completeTask`: writes only the task's status, then the food item,
        then the donor's notification, with the same failure behaviour as
        `AcceptTask`. */
    method CompleteTask(taskId: string, now: int, newId: string, faults: Faults) returns (r: Result<Task, StoreError>)
      requires Valid()
      modifies this`tasks, this`foodItems, this`notifications
      ensures Valid()
      ensures faults.taskWrite || taskId !in old(tasks) ==>
                r == Err(if faults.taskWrite then StoreFailure else NoMatchingRow) &&
                tasks == old(tasks) && foodItems == old(foodItems) && notifications == old(notifications)
      ensures !faults.taskWrite && taskId in old(tasks) ==>
                var t := old(tasks)[taskId].(status := TaskStatus.Completed);
                tasks == old(tasks)[taskId := t] &&
                Stepped(old(foodItems), old(notifications), t.foodItemId, Completion, now, newId, faults,
                        foodItems, notifications) &&
                r == if faults.foodWrite then Err(StoreFailure) else Ok(MapTask(t))
      ensures old(TablesPaired(foodItems, tasks)) && !faults.foodWrite ==> TablesPaired(foodItems, tasks)
      ensures (old(TablesPaired(foodItems, tasks)) && !faults.taskWrite && faults.foodWrite &&
               taskId in old(tasks) && old(tasks[taskId].status) != TaskStatus.Completed) ==> !TablesPaired(foodItems, tasks)
    {
      if faults.taskWrite {
        return Err(StoreFailure);
      }
      if taskId !in tasks {
        return Err(NoMatchingRow);
      }
      var t := tasks[taskId].(status := TaskStatus.Completed);
      var failed := Advance(taskId, t, Completion, now, newId, faults);
      r := if failed then Err(StoreFailure) else Ok(MapTask(t));
    }

    /** The part `acceptTask` and `completeTask` share once the task row is
        found: store the updated task, then the food-item part. */
    method Advance(taskId: string, t: Task, step: PickupStep, now: int, newId: string, faults: Faults) returns (failed: bool)
      requires Valid() && taskId in tasks && t.id == taskId && t.foodItemId == tasks[taskId].foodItemId
      requires t.status == StepStatus(step)
      modifies this`tasks, this`foodItems, this`notifications
      ensures Valid()
      ensures failed == faults.foodWrite
      ensures tasks == old(tasks)[taskId := t]
      ensures Stepped(old(foodItems), old(notifications), t.foodItemId, step, now, newId, faults, foodItems, notifications)
      ensures old(TablesPaired(foodItems, tasks)) && !faults.foodWrite ==> TablesPaired(foodItems, tasks)
      ensures (old(TablesPaired(foodItems, tasks)) && faults.foodWrite &&
               PairedFoodStatus(t.status) != PairedFoodStatus(old(tasks[taskId].status))) ==> !TablesPaired(foodItems, tasks)
    {
      ghost var paired := TablesPaired(foodItems, tasks);
      if paired {
        BothWritesKeepPaired(foodItems, tasks, taskId, t);
        if PairedFoodStatus(t.status) != PairedFoodStatus(tasks[taskId].status) {
          TaskWriteAloneBreaksPaired(foodItems, tasks, taskId, t);
        }
      }
      tasks := tasks[taskId := t];
      failed := FinishStep(t.foodItemId, step, now, newId, faults);
    }

    /** The food-item write, the re-read of its title and donor, and the
        insert of the donor's notification, whose error is not checked. */
    method FinishStep(foodId: string, step: PickupStep, now: int, newId: string, faults: Faults) returns (failed: bool)
      requires Valid()
      modifies this`foodItems, this`notifications
      ensures Valid()
      ensures failed == faults.foodWrite
      ensures Stepped(old(foodItems), old(notifications), foodId, step, now, newId, faults, foodItems, notifications)
    {
      if faults.foodWrite {
        return true;
      }
      foodItems := WriteFoodStatus(foodItems, foodId, PairedFoodStatus(StepStatus(step)));
      var item := if !faults.foodRead && foodId in foodItems then Some(foodItems[foodId]) else None;
      if item.Some? && !faults.notificationInsert {
        notifications := notifications + [StepNotice(item.value, foodId, step, now, newId)];
      }
      failed := false;
    }
  }

  /** The row inserted for the donor of `item`, linking to `/food/{foodId}`;
      `read` takes the table's default. */
  function StepNotice(item: FoodRow, foodId: string, step: PickupStep, now: int, id: string): Notification {
    Notification(id, item.donorId, StepMessage(step, item.title), false, now, StepKind(step), Some(FoodUrl(foodId)))
  }

  /** The tables after the food-item part of a transition: nothing when the
      food write fails; otherwise the status write, and one notice to the
      item's donor when the item exists, its re-read succeeds and the insert
      succeeds. */
  ghost predicate Stepped(items0: map<string, FoodRow>, ns0: seq<Notification>, foodId: string, step: PickupStep,
                          now: int, newId: string, faults: Faults, items: map<string, FoodRow>, ns: seq<Notification>) {
    if faults.foodWrite then items == items0 && ns == ns0
    else
      items == WriteFoodStatus(items0, foodId, PairedFoodStatus(StepStatus(step))) &&
      ns == ns0 + (if foodId in items0 && !faults.foodRead && !faults.notificationInsert
                   then [StepNotice(items[foodId], foodId, step, now, newId)] else [])
  }

  /** A transition notifies at most once, and only after both writes succeed. */
  lemma SteppedNotifiesOnce(items0: map<string, FoodRow>, ns0: seq<Notification>, foodId: string, step: PickupStep,
                            now: int, newId: string, faults: Faults, items: map<string, FoodRow>, ns: seq<Notification>)
    requires Stepped(items0, ns0, foodId, step, now, newId, faults, items, ns)
    ensures |ns| <= |ns0| + 1 && ns[..|ns0|] == ns0
    ensures |ns| == |ns0| + 1 <==> !faults.foodWrite && foodId in items0 && !faults.foodRead && !faults.notificationInsert
    ensures |ns| == |ns0| + 1 ==>
              ns[|ns0|].userId == items0[foodId].donorId && ns[|ns0|].actionUrl == Some(FoodUrl(foodId)) &&
              ns[|ns0|].kind == StepKind(step) && ns[|ns0|].message == StepMessage(step, items0[foodId].title)
  {
  }
}
