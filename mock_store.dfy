/** The in-memory prototype store: four arrays (users, food items, tasks,
    notifications) and the signed-in user, with the donation lifecycle
    (create, accept, complete), the notification fan-out and the lookups the
    pages use. Every record's id is `(position + 1).toString()`. */
module MockStore {

  import opened Wrappers
  import opened Common
  import opened Seqs
  import Text

  // ---------------------------------------------------------------------------
  // Record ids: the n-th record pushed gets the id `String(n)`, so every id
  // reads back as its position plus one.

  /** The number an id spells. */
  function IdNumber(id: string): int {
    Text.ParseDecimal(id)
  }

  ghost predicate UsersNumbered(us: seq<User>) {
    forall i :: 0 <= i < |us| ==> IdNumber(us[i].id) == i + 1
  }

  ghost predicate FoodNumbered(items: seq<FoodItem>) {
    forall i :: 0 <= i < |items| ==> IdNumber(items[i].id) == i + 1
  }

  ghost predicate TasksNumbered(ts: seq<Task>) {
    forall i :: 0 <= i < |ts| ==> IdNumber(ts[i].id) == i + 1
  }

  ghost predicate NotificationsNumbered(ns: seq<Notification>) {
    forall i :: 0 <= i < |ns| ==> IdNumber(ns[i].id) == i + 1
  }

  /** The id given to the n-th record reads back as n. */
  lemma IdNumberOfIdString(n: nat)
    ensures IdNumber(IdString(n)) == n
  {
    Text.ParseNatToString(n);
  }

  lemma FoodNumberedUpdate(items: seq<FoodItem>, m: nat, f: FoodItem)
    requires FoodNumbered(items) && m < |items| && f.id == items[m].id
    ensures FoodNumbered(items[m := f])
  {
  }

  lemma TasksNumberedUpdate(tasks: seq<Task>, k: nat, t: Task)
    requires TasksNumbered(tasks) && k < |tasks| && t.id == tasks[k].id
    ensures TasksNumbered(tasks[k := t])
  {
  }

  lemma FoodNumberedSnoc(items: seq<FoodItem>, f: FoodItem)
    requires FoodNumbered(items) && f.id == IdString(|items| + 1)
    ensures FoodNumbered(items + [f])
  {
    IdNumberOfIdString(|items| + 1);
  }

  lemma TasksNumberedSnoc(ts: seq<Task>, t: Task)
    requires TasksNumbered(ts) && t.id == IdString(|ts| + 1)
    ensures TasksNumbered(ts + [t])
  {
    IdNumberOfIdString(|ts| + 1);
  }

  lemma NotificationsNumberedSnoc(ns: seq<Notification>, n: Notification)
    requires NotificationsNumbered(ns) && n.id == IdString(|ns| + 1)
    ensures NotificationsNumbered(ns + [n])
  {
    IdNumberOfIdString(|ns| + 1);
  }

  /** A numbered array never already holds the id the next push will get. */
  lemma NextFoodIdIsFresh(items: seq<FoodItem>)
    requires FoodNumbered(items)
    ensures forall j :: 0 <= j < |items| ==> items[j].id != IdString(|items| + 1)
  {
    IdNumberOfIdString(|items| + 1);
  }

  // ---------------------------------------------------------------------------
  // The pairing between food items and their pickup tasks.

  /** Looking up task `t`'s food item by id (`foodItems.find`) finds one whose
      status matches the task's. */
  ghost predicate PairedWith(items: seq<FoodItem>, t: Task) {
    match FirstIndex(items, FoodWithId(t.foodItemId))
    case None => false
    case Some(m) => items[m].status == PairedFoodStatus(t.status)
  }

  ghost predicate HasTask(tasks: seq<Task>, item: FoodItem) {
    exists i :: 0 <= i < |tasks| && tasks[i].foodItemId == item.id
  }

  /** Every task finds its food item, with the matching status. */
  ghost predicate PointHome(items: seq<FoodItem>, tasks: seq<Task>) {
    forall i :: 0 <= i < |tasks| ==> PairedWith(items, tasks[i])
  }

  /** No two tasks point at the same food item. */
  ghost predicate OnePerItem(tasks: seq<Task>) {
    forall i, j :: 0 <= i < j < |tasks| ==> tasks[i].foodItemId != tasks[j].foodItemId
  }

  /** Every food item has a task. */
  ghost predicate Covered(items: seq<FoodItem>, tasks: seq<Task>) {
    forall k :: 0 <= k < |items| ==> HasTask(tasks, items[k])
  }

  /** One task per food item, each task on a different item, and the statuses
      correspond: available/pending, assigned/accepted, completed/completed. */
  ghost predicate Paired(items: seq<FoodItem>, tasks: seq<Task>) {
    && |tasks| == |items|
    && PointHome(items, tasks)
    && OnePerItem(tasks)
    && Covered(items, tasks)
  }

  /** Under the pairing, the food item a task points at is always found. */
  lemma PairedItemFound(items: seq<FoodItem>, tasks: seq<Task>, k: nat)
    requires k < |tasks|
    ensures Paired(items, tasks) ==> FirstIndex(items, FoodWithId(tasks[k].foodItemId)).Some?
  {
    if Paired(items, tasks) {
      assert PairedWith(items, tasks[k]);
    }
  }

  /** Moving a task and the food item it finds to corresponding statuses keeps
      the pairing. */
  lemma UpdatePairKeepsPaired(items: seq<FoodItem>, tasks: seq<Task>, k: nat, m: nat, t: Task, f: FoodItem)
    requires k < |tasks| && FirstIndex(items, FoodWithId(tasks[k].foodItemId)) == Some(m)
    requires t.foodItemId == tasks[k].foodItemId && f.id == items[m].id
    requires f.status == PairedFoodStatus(t.status)
    ensures Paired(items, tasks) ==> Paired(items[m := f], tasks[k := t])
  {
    if Paired(items, tasks) {
      UpdatePairPointsHome(items, tasks, k, m, t, f);
      SameTargetsOnePerItem(tasks, k, t);
      SameIdsCovered(items, tasks, k, m, t, f);
    }
  }

  lemma SameTargetsOnePerItem(tasks: seq<Task>, k: nat, t: Task)
    requires OnePerItem(tasks) && k < |tasks| && t.foodItemId == tasks[k].foodItemId
    ensures OnePerItem(tasks[k := t])
  {
    var tasks' := tasks[k := t];
    forall i, j | 0 <= i < j < |tasks'| ensures tasks'[i].foodItemId != tasks'[j].foodItemId {
      assert tasks'[i].foodItemId == tasks[i].foodItemId && tasks'[j].foodItemId == tasks[j].foodItemId;
    }
  }

  lemma SameIdsCovered(items: seq<FoodItem>, tasks: seq<Task>, k: nat, m: nat, t: Task, f: FoodItem)
    requires Covered(items, tasks) && k < |tasks| && m < |items|
    requires t.foodItemId == tasks[k].foodItemId && f.id == items[m].id
    ensures Covered(items[m := f], tasks[k := t])
  {
    var items', tasks' := items[m := f], tasks[k := t];
    forall j | 0 <= j < |items'| ensures HasTask(tasks', items'[j]) {
      assert HasTask(tasks, items[j]);
      var i :| 0 <= i < |tasks| && tasks[i].foodItemId == items[j].id;
      assert tasks'[i].foodItemId == items'[j].id;
    }
  }

  lemma UpdatePairPointsHome(items: seq<FoodItem>, tasks: seq<Task>, k: nat, m: nat, t: Task, f: FoodItem)
    requires PointHome(items, tasks) && OnePerItem(tasks)
    requires k < |tasks| && FirstIndex(items, FoodWithId(tasks[k].foodItemId)) == Some(m)
    requires t.foodItemId == tasks[k].foodItemId && f.id == items[m].id
    requires f.status == PairedFoodStatus(t.status)
    ensures PointHome(items[m := f], tasks[k := t])
  {
    var items', tasks' := items[m := f], tasks[k := t];
    forall i | 0 <= i < |tasks'| ensures PairedWith(items', tasks'[i]) {
      var p := FoodWithId(tasks'[i].foodItemId);
      FirstIndexSamePred(items, items', p);
      if i != k {
        assert tasks'[i] == tasks[i];
        assert PairedWith(items, tasks[i]);
        assert tasks[i].foodItemId != tasks[k].foodItemId;
      } else {
        assert tasks'[i] == t;
      }
    }
  }

  /** Appending an available item with a fresh id together with its pending
      task keeps the pairing. */
  lemma {:induction false} AddPairKeepsPaired(items: seq<FoodItem>, tasks: seq<Task>, f: FoodItem, t: Task)
    requires forall j :: 0 <= j < |items| ==> items[j].id != f.id
    requires t.foodItemId == f.id && t.status == Pending
    ensures Paired(items, tasks) && f.status == Available ==> Paired(items + [f], tasks + [t])
  {
    if Paired(items, tasks) && f.status == Available {
      var items', tasks' := items + [f], tasks + [t];
      var n := |items|;
      AddPairPointsHome(items, tasks, f, t);
      forall i | 0 <= i < |tasks| ensures tasks[i].foodItemId != f.id {
        assert PairedWith(items, tasks[i]);
      }
      forall j | 0 <= j < |items'| ensures HasTask(tasks', items'[j]) {
        if j < n {
          assert HasTask(tasks, items[j]);
          var i :| 0 <= i < |tasks| && tasks[i].foodItemId == items[j].id;
          assert tasks'[i].foodItemId == items'[j].id;
        } else {
          assert tasks'[n].foodItemId == items'[j].id;
        }
      }
    }
  }

  lemma AddPairPointsHome(items: seq<FoodItem>, tasks: seq<Task>, f: FoodItem, t: Task)
    requires PointHome(items, tasks)
    requires forall j :: 0 <= j < |items| ==> items[j].id != f.id
    requires t.foodItemId == f.id && f.status == PairedFoodStatus(t.status)
    ensures PointHome(items + [f], tasks + [t])
  {
    var items', tasks' := items + [f], tasks + [t];
    forall i | 0 <= i < |tasks'| ensures PairedWith(items', tasks'[i]) {
      FirstIndexSnoc(items, f, FoodWithId(tasks'[i].foodItemId));
      if i < |tasks| {
        assert tasks'[i] == tasks[i];
        assert PairedWith(items, tasks[i]);
      } else {
        assert FirstIndex(items, FoodWithId(f.id)).None?;
      }
    }
  }

  // ---------------------------------------------------------------------------
  // Lookup predicates passed to `find`/`filter`.

  function FoodWithId(id: string): FoodItem -> bool { (f: FoodItem) => f.id == id }

  function TaskWithId(id: string): Task -> bool { (t: Task) => t.id == id }

  function NotificationWithId(id: string): Notification -> bool { (n: Notification) => n.id == id }

  function UserWithEmail(email: string): User -> bool { (u: User) => u.email == email }

  // ---------------------------------------------------------------------------
  // Notifications the lifecycle sends.

  /** Volunteers and beneficiaries hear about new food; donors do not. */
  predicate IsFoodRecipient(u: User) {
    u.role == Volunteer || u.role == Beneficiary
  }

  /** The `food_available` notice for user `u`: volunteers are sent to the task
      board, beneficiaries to the new item's page. */
  function FoodAvailableNotice(u: User, title: string, foodId: string, now: int, id: string): Notification {
    Notification(id, u.id, NewFoodAvailable(title), false, now, FoodAvailable,
                 Some(if u.role == Volunteer then "/tasks" else FoodUrl(foodId)))
  }

  /** The notices the creation loop pushes for `us`, numbered on from `base`. */
  function FoodAvailableNotices(us: seq<User>, title: string, foodId: string, now: int, base: nat): seq<Notification>
    decreases |us|
  {
    if us == [] then []
    else
      var pre := FoodAvailableNotices(us[..|us| - 1], title, foodId, now, base);
      var u := us[|us| - 1];
      if IsFoodRecipient(u) then pre + [FoodAvailableNotice(u, title, foodId, now, IdString(base + |pre| + 1))]
      else pre
  }

  /** One more turn of the creation loop: user `i` adds its notice, if any, at the end. */
  lemma NoticesStep(us: seq<User>, i: nat, title: string, foodId: string, now: int, base: nat)
    requires i < |us|
    ensures var pre := FoodAvailableNotices(us[..i], title, foodId, now, base);
            FoodAvailableNotices(us[..i + 1], title, foodId, now, base) ==
              if IsFoodRecipient(us[i]) then pre + [FoodAvailableNotice(us[i], title, foodId, now, IdString(base + |pre| + 1))]
              else pre
  {
    assert us[..i + 1][..i] == us[..i];
  }

  /** The creation loop's notices for `init + [u]` are those for `init`, then `u`'s notice, if any. */
  lemma FoodAvailableNoticesSnoc(init: seq<User>, u: User, title: string, foodId: string, now: int, base: nat)
    ensures var pre := FoodAvailableNotices(init, title, foodId, now, base);
            FoodAvailableNotices(init + [u], title, foodId, now, base) ==
              if IsFoodRecipient(u) then pre + [FoodAvailableNotice(u, title, foodId, now, IdString(base + |pre| + 1))]
              else pre
  {
    assert (init + [u])[..|init|] == init;
  }

  /** `ns` holds one notice per user of `rs`, in order, the k-th numbered `base + k + 1`. */
  ghost predicate NoticesFor(ns: seq<Notification>, rs: seq<User>, title: string, foodId: string, now: int, base: nat) {
    && |ns| == |rs|
    && forall k :: 0 <= k < |rs| ==> ns[k] == FoodAvailableNotice(rs[k], title, foodId, now, IdString(base + k + 1))
  }

  lemma NoticesForSnoc(ns: seq<Notification>, rs: seq<User>, u: User, title: string, foodId: string, now: int, base: nat)
    requires NoticesFor(ns, rs, title, foodId, now, base)
    ensures NoticesFor(ns + [FoodAvailableNotice(u, title, foodId, now, IdString(base + |ns| + 1))], rs + [u],
                       title, foodId, now, base)
  {
  }

  /** One notice per volunteer or beneficiary, in user order, the k-th numbered `base + k + 1`. */
  lemma {:induction false} FoodAvailableNoticesSpec(us: seq<User>, title: string, foodId: string, now: int, base: nat)
    ensures NoticesFor(FoodAvailableNotices(us, title, foodId, now, base), Filter(us, IsFoodRecipient),
                       title, foodId, now, base)
    decreases |us|
  {
    if us != [] {
      var init, u := us[..|us| - 1], us[|us| - 1];
      FoodAvailableNoticesSpec(init, title, foodId, now, base);
      assert us == init + [u];
      FilterSnoc(init, u, IsFoodRecipient);
      FoodAvailableNoticesSnoc(init, u, title, foodId, now, base);
      if IsFoodRecipient(u) {
        NoticesForSnoc(FoodAvailableNotices(init, title, foodId, now, base), Filter(init, IsFoodRecipient),
                       u, title, foodId, now, base);
      }
    }
  }

  /** Donors never receive a `food_available` notice. */
  lemma NoNoticeForDonors(us: seq<User>, title: string, foodId: string, now: int, base: nat, j: nat)
    requires UsersNumbered(us) && j < |us| && us[j].role == Donor
    ensures forall n :: n in FoodAvailableNotices(us, title, foodId, now, base) ==> n.userId != us[j].id
  {
    var rs := Filter(us, IsFoodRecipient);
    FoodAvailableNoticesSpec(us, title, foodId, now, base);
    forall n | n in FoodAvailableNotices(us, title, foodId, now, base) ensures n.userId != us[j].id {
      var ns := FoodAvailableNotices(us, title, foodId, now, base);
      var k :| 0 <= k < |ns| && ns[k] == n;
      assert n.userId == rs[k].id;
      assert rs[k] in us;
      var i :| 0 <= i < |us| && us[i] == rs[k];
      assert IsFoodRecipient(us[i]) && i != j;
      assert IdNumber(us[i].id) == i + 1 && IdNumber(us[j].id) == j + 1;
    }
  }

  /** The notice a transition sends to the item's donor. */
  function DonorNotice(item: FoodItem, message: Message, kind: NotificationType, now: int, id: string): Notification {
    Notification(id, item.donorId, message, false, now, kind, Some(FoodUrl(item.id)))
  }

  /** The arrays after `step` stored task `t` at position `k`: the food item
      the task points at (the first with that id) takes the matching status and
      its donor gets the next notification; with no such item only the task
      changes. */
  ghost predicate Advanced(items0: seq<FoodItem>, tasks0: seq<Task>, ns0: seq<Notification>,
                           k: nat, t: Task, step: PickupStep, now: int,
                           items: seq<FoodItem>, tasks: seq<Task>, ns: seq<Notification>)
  {
    && k < |tasks0|
    && tasks == tasks0[k := t]
    && match FirstIndex(items0, FoodWithId(t.foodItemId))
       case None => items == items0 && ns == ns0
       case Some(m) =>
         var f := items0[m].(status := PairedFoodStatus(StepStatus(step)));
         && items == items0[m := f]
         && ns == ns0 + [DonorNotice(f, StepMessage(step, f.title), StepKind(step), now, IdString(|ns0| + 1))]
  }

  /** `markNotificationAsRead` on an array: the first notification with that id becomes read. */
  function MarkFirstRead(ns: seq<Notification>, id: string): (r: seq<Notification>)
    ensures |r| == |ns|
    ensures (forall i :: 0 <= i < |ns| ==> ns[i].id != id) ==> r == ns
    ensures forall i :: 0 <= i < |ns| ==> r[i].id == ns[i].id && r[i].userId == ns[i].userId
    ensures forall i :: 0 <= i < |ns| ==> (r[i].read <==> ns[i].read || Some(i) == FirstIndex(ns, NotificationWithId(id)))
  {
    match FirstIndex(ns, NotificationWithId(id))
    case None => ns
    case Some(k) => ns[k := ns[k].(read := true)]
  }

  /** Marking changes only the `read` flag of the first match, and only to true. */
  lemma MarkFirstReadEffect(ns: seq<Notification>, id: string)
    ensures var r := MarkFirstRead(ns, id);
            forall i :: 0 <= i < |ns| ==>
              r[i] == (if Some(i) == FirstIndex(ns, NotificationWithId(id)) then ns[i].(read := true) else ns[i])
  {
  }

  /** Marking the same notification twice is the same as marking it once. */
  lemma MarkFirstReadIdempotent(ns: seq<Notification>, id: string)
    ensures MarkFirstRead(MarkFirstRead(ns, id), id) == MarkFirstRead(ns, id)
  {
    var r := MarkFirstRead(ns, id);
    match FirstIndex(ns, NotificationWithId(id))
    case None =>
    case Some(k) =>
      assert forall j :: 0 <= j < |ns| ==> (NotificationWithId(id)(r[j]) <==> NotificationWithId(id)(ns[j]));
  }

  // ---------------------------------------------------------------------------
  // The seed arrays.

  function SeedUsers(): seq<User> {
    [ User("1", "John Donor", "john@example.com", Donor, Some("Downtown"), Some("555-1234"),
           Some(UnsplashPhoto("1633332755192-727a05c4013d", "100"))),
      User("2", "Sarah Volunteer", "sarah@example.com", Volunteer, Some("Uptown"), Some("555-5678"),
           Some(UnsplashPhoto("1494790108377-be9c29b29330", "100"))),
      User("3", "Mike Beneficiary", "mike@example.com", Beneficiary, Some("Midtown"), Some("555-9012"),
           Some(UnsplashPhoto("1599566150163-29194dcaad36", "100"))),
      User("4", "Emma Donor", "emma@example.com", Donor, Some("West End"), Some("555-3456"),
           Some(UnsplashPhoto("1580489944761-15a19d654956", "100"))),
      User("5", "Alex Volunteer", "alex@example.com", Volunteer, Some("East Side"), Some("555-7890"),
           Some(UnsplashPhoto("1607746882042-944635dfe10e", "100"))) ]
  }

  function SeedFoodItems(): seq<FoodItem> {
    [ FoodItem("1", "Fresh Vegetables", "Assorted vegetables from local farm", "5 kg", "Produce",
               "2025-04-18", "123 Main St, Downtown", "10:00", "14:00", Available, "1", "John Donor",
               1744446600000, Some(UnsplashPhoto("1567306226408-28f7c7334c2c", "300"))),
      FoodItem("2", "Bread and Pastries", "Assorted bread and pastries from local bakery", "10 items", "Bakery",
               "2025-04-14", "456 Oak St, West End", "16:00", "18:00", Assigned, "4", "Emma Donor",
               1744451100000, Some(UnsplashPhoto("1608198093002-ad4e005484ec", "300"))),
      FoodItem("3", "Canned Goods", "Various canned soups and vegetables", "15 cans", "Non-perishable",
               "2025-10-30", "789 Pine St, Uptown", "09:00", "12:00", Available, "1", "John Donor",
               1744381200000, Some(UnsplashPhoto("1584263347416-85a696b4fbc2", "300"))),
      FoodItem("4", "Dairy Products", "Milk, cheese, and yogurt", "8 items", "Dairy",
               "2025-04-16", "321 Elm St, Midtown", "13:00", "15:00", FoodStatus.Completed, "4", "Emma Donor",
               1744301400000, Some(UnsplashPhoto("1628088062854-d1870b4553da", "300"))),
      FoodItem("5", "Rice and Pasta", "5kg of rice and assorted pasta packages", "8 packages", "Grains",
               "2025-12-20", "654 Maple St, East Side", "11:00", "13:00", Available, "1", "John Donor",
               1744455900000, Some(UnsplashPhoto("1516714435131-44d6b64dc6a2", "300"))) ]
  }

  function SeedTasks(): seq<Task> {
    [ Task("1", "2", Some("2"), Accepted, 1744452000000, Some(1744563600000)),
      Task("2", "4", Some("5"), TaskStatus.Completed, 1744304400000, Some(1744380000000)),
      Task("3", "1", None, Pending, 1744448400000, None),
      Task("4", "3", None, Pending, 1744383600000, None),
      Task("5", "5", None, Pending, 1744459200000, None) ]
  }

  function SeedNotifications(): seq<Notification> {
    [ Notification("1", "2", Plain("New food donation available in your area"), false, 1744448700000, FoodAvailable, Some("/tasks")),
      Notification("2", "2", Plain("You have been assigned a pickup task"), true, 1744452300000, TaskAssigned, Some("/tasks/1")),
      Notification("3", "3", Plain("New food available near you: Fresh Vegetables"), false, 1744446900000, FoodAvailable, Some("/food/1")),
      Notification("4", "5", Plain("Pickup for Dairy Products completed"), true, 1744380300000, PickupScheduled, Some("/tasks/2")),
      Notification("5", "3", Plain("New food available near you: Rice and Pasta"), false, 1744456200000, FoodAvailable, Some("/food/5")) ]
  }

  lemma SmallIds()
    ensures IdNumber("1") == 1 && IdNumber("2") == 2 && IdNumber("3") == 3
    ensures IdNumber("4") == 4 && IdNumber("5") == 5
  {
  }

  /** Five users with ids "1" to "5" are numbered. */
  lemma FiveUsersNumbered(us: seq<User>)
    requires |us| == 5 && us[0].id == "1" && us[1].id == "2" && us[2].id == "3" && us[3].id == "4" && us[4].id == "5"
    ensures UsersNumbered(us)
  {
    SmallIds();
  }

  lemma FiveFoodItemsNumbered(items: seq<FoodItem>)
    requires |items| == 5 && items[0].id == "1" && items[1].id == "2" && items[2].id == "3"
    requires items[3].id == "4" && items[4].id == "5"
    ensures FoodNumbered(items)
  {
    SmallIds();
  }

  lemma FiveTasksNumbered(ts: seq<Task>)
    requires |ts| == 5 && ts[0].id == "1" && ts[1].id == "2" && ts[2].id == "3" && ts[3].id == "4" && ts[4].id == "5"
    ensures TasksNumbered(ts)
  {
    SmallIds();
  }

  lemma FiveNotificationsNumbered(ns: seq<Notification>)
    requires |ns| == 5 && ns[0].id == "1" && ns[1].id == "2" && ns[2].id == "3" && ns[3].id == "4" && ns[4].id == "5"
    ensures NotificationsNumbered(ns)
  {
    SmallIds();
  }

  /** The seed arrays are numbered 1 to 5. */
  lemma SeedUsersNumbered()
    ensures UsersNumbered(SeedUsers())
  {
    FiveUsersNumbered(SeedUsers());
  }

  lemma SeedFoodNumbered()
    ensures FoodNumbered(SeedFoodItems())
  {
    FiveFoodItemsNumbered(SeedFoodItems());
  }

  lemma SeedTasksNumbered()
    ensures TasksNumbered(SeedTasks())
  {
    FiveTasksNumbered(SeedTasks());
  }

  lemma SeedNotificationsNumbered()
    ensures NotificationsNumbered(SeedNotifications())
  {
    FiveNotificationsNumbered(SeedNotifications());
  }

  /** In a numbered array the lookup by a record's id finds that record. */
  lemma NumberedFoodLookup(items: seq<FoodItem>, k: nat)
    requires FoodNumbered(items) && k < |items|
    ensures FirstIndex(items, FoodWithId(items[k].id)) == Some(k)
  {
    assert FoodWithId(items[k].id)(items[k]);
    var m := FirstIndex(items, FoodWithId(items[k].id)).value;
    assert items[m].id == items[k].id;
    assert IdNumber(items[m].id) == m + 1 && IdNumber(items[k].id) == k + 1;
  }

  /** The seed's shape: task 1 on item 2 (accepted/assigned), task 2 on item 4
      (completed/completed) and tasks 3, 4, 5 on items 1, 3, 5 (pending/available). */
  ghost predicate SeedShape(items: seq<FoodItem>, tasks: seq<Task>) {
    && |items| == 5 && |tasks| == 5
    && items[0].status == Available && items[1].status == Assigned && items[2].status == Available
    && items[3].status == FoodStatus.Completed && items[4].status == Available
    && tasks[0].foodItemId == items[1].id && tasks[0].status == Accepted
    && tasks[1].foodItemId == items[3].id && tasks[1].status == TaskStatus.Completed
    && tasks[2].foodItemId == items[0].id && tasks[2].status == Pending
    && tasks[3].foodItemId == items[2].id && tasks[3].status == Pending
    && tasks[4].foodItemId == items[4].id && tasks[4].status == Pending
  }

  lemma SeedShapePaired(items: seq<FoodItem>, tasks: seq<Task>)
    requires FoodNumbered(items) && SeedShape(items, tasks)
    ensures Paired(items, tasks)
  {
    SeedShapePointHome(items, tasks);
    SeedShapeOnePerItem(items, tasks);
    assert HasTask(tasks, items[0]) by { assert tasks[2].foodItemId == items[0].id; }
    assert HasTask(tasks, items[1]) by { assert tasks[0].foodItemId == items[1].id; }
    assert HasTask(tasks, items[2]) by { assert tasks[3].foodItemId == items[2].id; }
    assert HasTask(tasks, items[3]) by { assert tasks[1].foodItemId == items[3].id; }
    assert HasTask(tasks, items[4]) by { assert tasks[4].foodItemId == items[4].id; }
  }

  lemma SeedShapePointHome(items: seq<FoodItem>, tasks: seq<Task>)
    requires FoodNumbered(items) && SeedShape(items, tasks)
    ensures PointHome(items, tasks)
  {
    forall i | 0 <= i < |tasks| ensures PairedWith(items, tasks[i]) {
      if i == 0 { NumberedFoodLookup(items, 1); }
      else if i == 1 { NumberedFoodLookup(items, 3); }
      else if i == 2 { NumberedFoodLookup(items, 0); }
      else if i == 3 { NumberedFoodLookup(items, 2); }
      else { NumberedFoodLookup(items, 4); }
    }
  }

  lemma SeedShapeOnePerItem(items: seq<FoodItem>, tasks: seq<Task>)
    requires FoodNumbered(items) && SeedShape(items, tasks)
    ensures OnePerItem(tasks)
  {
    var n := [2, 4, 1, 3, 5];
    assert forall i :: 0 <= i < 5 ==> IdNumber(tasks[i].foodItemId) == n[i];
  }

  /** The seed's food items and tasks satisfy the pairing. */
  lemma SeedPaired()
    ensures Paired(SeedFoodItems(), SeedTasks())
  {
    SeedFoodNumbered();
    SeedShapePaired(SeedFoodItems(), SeedTasks());
  }

  // ---------------------------------------------------------------------------
  // The store.

  class DonationStore {
    var users: seq<User>
    var foodItems: seq<FoodItem>
    var tasks: seq<Task>
    var notifications: seq<Notification>
    var currentUser: Option<User>

    /** Every array is numbered by position. */
    ghost predicate Valid()
      reads this
    {
      UsersNumbered(users) && FoodNumbered(foodItems) && TasksNumbered(tasks) && NotificationsNumbered(notifications)
    }

    /** A store over the given arrays, nobody signed in. The module starts
        from `SeedUsers()`, `SeedFoodItems()`, `SeedTasks()` and
        `SeedNotifications()`, which meet the requirement (the `Seed...Numbered`
        lemmas) and are paired (`SeedPaired`). */
    constructor (users0: seq<User>, items0: seq<FoodItem>, tasks0: seq<Task>, notifications0: seq<Notification>)
      requires UsersNumbered(users0) && FoodNumbered(items0)
      requires TasksNumbered(tasks0) && NotificationsNumbered(notifications0)
      ensures Valid()
      ensures users == users0 && foodItems == items0 && tasks == tasks0 && notifications == notifications0
      ensures currentUser == None
    {
      users, foodItems, tasks, notifications := users0, items0, tasks0, notifications0;
      currentUser := None;
    }

    /** `login`: signs in the first user with that email; the password is not checked. */
    method Login(email: string, password: string) returns (r: Option<User>)
      modifies this`currentUser
      ensures match FirstIndex(users, UserWithEmail(email))
              case None => r == None && currentUser == old(currentUser)
              case Some(i) => r == Some(users[i]) && currentUser == r
    {
      var i := FirstIndex(users, UserWithEmail(email));
      if i.None? {
        return None;
      }
      currentUser := Some(users[i.value]);
      r := currentUser;
    }

    method Logout()
      modifies this`currentUser
      ensures currentUser == None
    {
      currentUser := None;
    }

    /** `register`: refuses a taken email; otherwise appends a user numbered
        `|users| + 1` and signs them in. */
    method Register(name: string, email: string, password: string, role: Role) returns (r: Option<User>)
      requires Valid()
      modifies this`users, this`currentUser
      ensures Valid()
      ensures (exists i :: 0 <= i < |old(users)| && old(users)[i].email == email) ==>
                r == None && users == old(users) && currentUser == old(currentUser)
      ensures (forall i :: 0 <= i < |old(users)| ==> old(users)[i].email != email) ==>
                var u := User(IdString(|old(users)| + 1), name, email, role, None, None, None);
                r == Some(u) && users == old(users) + [u] && currentUser == r
    {
      var taken := FirstIndex(users, UserWithEmail(email));
      if taken.Some? {
        return None;
      }
      var u := User(IdString(|users| + 1), name, email, role, None, None, None);
      IdNumberOfIdString(|users| + 1);
      users := users + [u];
      currentUser := Some(u);
      r := currentUser;
    }

    // --- lookups

    function FoodItemsByStatus(status: FoodStatus): (r: seq<FoodItem>)
      reads this
      ensures forall x :: x in r <==> x in foodItems && x.status == status
      ensures IsSubseq(r, foodItems)
    {
      FilterIsSubseq(foodItems, (f: FoodItem) => f.status == status);
      Filter(foodItems, (f: FoodItem) => f.status == status)
    }

    function FoodItemsByDonor(donorId: string): (r: seq<FoodItem>)
      reads this
      ensures forall x :: x in r <==> x in foodItems && x.donorId == donorId
      ensures IsSubseq(r, foodItems)
    {
      FilterIsSubseq(foodItems, (f: FoodItem) => f.donorId == donorId);
      Filter(foodItems, (f: FoodItem) => f.donorId == donorId)
    }

    function TasksByVolunteer(volunteerId: string): (r: seq<Task>)
      reads this
      ensures forall x :: x in r <==> x in tasks && x.volunteerId == Some(volunteerId)
      ensures IsSubseq(r, tasks)
    {
      FilterIsSubseq(tasks, (t: Task) => t.volunteerId == Some(volunteerId));
      Filter(tasks, (t: Task) => t.volunteerId == Some(volunteerId))
    }

    function NotificationsByUser(userId: string): (r: seq<Notification>)
      reads this
      ensures forall x :: x in r <==> x in notifications && x.userId == userId
      ensures IsSubseq(r, notifications)
    {
      FilterIsSubseq(notifications, (n: Notification) => n.userId == userId);
      Filter(notifications, (n: Notification) => n.userId == userId)
    }

    /** The user's unread count never exceeds the number of their notifications,
        and is zero exactly when every one of them is read. */
    function UnreadNotificationCount(userId: string): (r: nat)
      reads this
      ensures r <= |NotificationsByUser(userId)|
      ensures r == 0 <==> forall n :: n in notifications && n.userId == userId ==> n.read
    {
      FilterMonotone(notifications, (n: Notification) => n.userId == userId && !n.read,
                     (n: Notification) => n.userId == userId);
      var unread := Filter(notifications, (n: Notification) => n.userId == userId && !n.read);
      assert unread != [] ==> unread[0] in unread;
      |unread|
    }

    // --- mutations

    method MarkNotificationAsRead(notificationId: string)
      requires Valid()
      modifies this`notifications
      ensures Valid()
      ensures notifications == MarkFirstRead(old(notifications), notificationId)
    {
      var k := FirstIndex(notifications, NotificationWithId(notificationId));
      if k.Some? {
        notifications := notifications[k.value := notifications[k.value].(read := true)];
      }
    }

    /** `addFoodItem`: appends the item and its pending task, then notifies every
        volunteer and beneficiary in user order. */
    method AddFoodItem(draft: FoodDraft, donorName: string, now: int) returns (item: FoodItem)
      requires Valid()
      modifies this`foodItems, this`tasks, this`notifications
      ensures Valid()
      ensures item == FoodItem(IdString(|old(foodItems)| + 1), draft.title, draft.description, draft.quantity,
                               draft.foodType, draft.expiryDate, draft.pickupLocation, draft.pickupTimeFrom,
                               draft.pickupTimeTo, draft.status, draft.donorId, donorName, now, draft.image)
      ensures foodItems == old(foodItems) + [item]
      ensures tasks == old(tasks) + [Task(IdString(|old(tasks)| + 1), item.id, None, Pending, now, None)]
      ensures notifications == old(notifications) + FoodAvailableNotices(users, draft.title, item.id, now, |old(notifications)|)
      ensures old(Paired(foodItems, tasks)) && draft.status == Available ==> Paired(foodItems, tasks)
    {
      item := FoodItem(IdString(|foodItems| + 1), draft.title, draft.description, draft.quantity,
                       draft.foodType, draft.expiryDate, draft.pickupLocation, draft.pickupTimeFrom,
                       draft.pickupTimeTo, draft.status, draft.donorId, donorName, now, draft.image);
      var task := Task(IdString(|tasks| + 1), item.id, None, Pending, now, None);
      FoodNumberedSnoc(foodItems, item);
      TasksNumberedSnoc(tasks, task);
      NextFoodIdIsFresh(foodItems);
      AddPairKeepsPaired(foodItems, tasks, item, task);
      foodItems := foodItems + [item];
      tasks := tasks + [task];
      NotifyFoodAvailable(draft.title, item.id, now);
    }

    /** The creation loop: every volunteer and beneficiary, in user order, is
        told about the new item. */
    method NotifyFoodAvailable(title: string, foodId: string, now: int)
      requires NotificationsNumbered(notifications)
      modifies this`notifications
      ensures NotificationsNumbered(notifications)
      ensures notifications == old(notifications) + FoodAvailableNotices(users, title, foodId, now, |old(notifications)|)
    {
      var base := |notifications|;
      var i := 0;
      while i < |users|
        invariant 0 <= i <= |users|
        invariant notifications == old(notifications) + FoodAvailableNotices(users[..i], title, foodId, now, base)
        invariant NotificationsNumbered(notifications)
      {
        var u := users[i];
        NoticesStep(users, i, title, foodId, now, base);
        if IsFoodRecipient(u) {
          var n := FoodAvailableNotice(u, title, foodId, now, IdString(|notifications| + 1));
          NotificationsNumberedSnoc(notifications, n);
          notifications := notifications + [n];
        }
        i := i + 1;
      }
      assert users[..|users|] == users;
    }

    /** `acceptTask`: the first task with that id gets the volunteer and status
        accepted, whatever its status was; its food item becomes assigned and
        the donor is notified. */
    method AcceptTask(taskId: string, volunteerId: string, now: int) returns (r: Option<Task>)
      requires Valid()
      modifies this`tasks, this`foodItems, this`notifications
      ensures Valid()
      ensures FirstIndex(old(tasks), TaskWithId(taskId)).None? ==>
                r == None && tasks == old(tasks) && foodItems == old(foodItems) && notifications == old(notifications)
      ensures FirstIndex(old(tasks), TaskWithId(taskId)).Some? ==>
                var k := FirstIndex(old(tasks), TaskWithId(taskId)).value;
                var t := old(tasks)[k].(volunteerId := Some(volunteerId), status := Accepted);
                r == Some(t) &&
                Advanced(old(foodItems), old(tasks), old(notifications), k, t, Acceptance, now, foodItems, tasks, notifications)
      ensures old(Paired(foodItems, tasks)) ==> Paired(foodItems, tasks)
    {
      var ti := FirstIndex(tasks, TaskWithId(taskId));
      if ti.None? {
        return None;
      }
      var k := ti.value;
      var t := tasks[k].(volunteerId := Some(volunteerId), status := Accepted);
      AdvancePair(k, t, Acceptance, now);
      r := Some(t);
    }

    /** `completeTask`: the first task with that id becomes completed (its
        volunteer is kept), its food item becomes completed and the donor is
        notified. */
    method CompleteTask(taskId: string, now: int) returns (r: Option<Task>)
      requires Valid()
      modifies this`tasks, this`foodItems, this`notifications
      ensures Valid()
      ensures FirstIndex(old(tasks), TaskWithId(taskId)).None? ==>
                r == None && tasks == old(tasks) && foodItems == old(foodItems) && notifications == old(notifications)
      ensures FirstIndex(old(tasks), TaskWithId(taskId)).Some? ==>
                var k := FirstIndex(old(tasks), TaskWithId(taskId)).value;
                var t := old(tasks)[k].(status := TaskStatus.Completed);
                r == Some(t) &&
                Advanced(old(foodItems), old(tasks), old(notifications), k, t, Completion, now, foodItems, tasks, notifications)
      ensures old(Paired(foodItems, tasks)) ==> Paired(foodItems, tasks)
    {
      var ti := FirstIndex(tasks, TaskWithId(taskId));
      if ti.None? {
        return None;
      }
      var k := ti.value;
      var t := tasks[k].(status := TaskStatus.Completed);
      AdvancePair(k, t, Completion, now);
      r := Some(t);
    }

    /** The part `acceptTask` and `completeTask` share: store the updated task
        at `k`, move the food item it points at (if found) to the matching
        status and notify that item's donor. */
    method AdvancePair(k: nat, t: Task, step: PickupStep, now: int)
      requires Valid() && k < |tasks| && t.id == tasks[k].id && t.foodItemId == tasks[k].foodItemId
      requires t.status == StepStatus(step)
      modifies this`tasks, this`foodItems, this`notifications
      ensures Valid()
      ensures Advanced(old(foodItems), old(tasks), old(notifications), k, t, step, now, foodItems, tasks, notifications)
      ensures old(Paired(foodItems, tasks)) ==> Paired(foodItems, tasks)
    {
      var fi := FirstIndex(foodItems, FoodWithId(t.foodItemId));
      if fi.Some? {
        var m := fi.value;
        var f := foodItems[m].(status := PairedFoodStatus(t.status));
        var n := DonorNotice(f, StepMessage(step, f.title), StepKind(step), now, IdString(|notifications| + 1));
        UpdatePairKeepsPaired(foodItems, tasks, k, m, t, f);
        FoodNumberedUpdate(foodItems, m, f);
        NotificationsNumberedSnoc(notifications, n);
        foodItems := foodItems[m := f];
        notifications := notifications + [n];
      } else {
        PairedItemFound(foodItems, tasks, k);
      }
      TasksNumberedUpdate(tasks, k, t);
      tasks := tasks[k := t];
    }
  }
}
