/** The application's entities (users, food items, pickup tasks and
    notifications), their status vocabularies and the role-based landing
    routes shared by the login and registration pages. Timestamps are
    milliseconds since the epoch. */
module Common {

  import opened Wrappers
  import Text

  datatype Role = Donor | Volunteer | Beneficiary

  datatype FoodStatus = Available | Assigned | Completed

  datatype TaskStatus = Pending | Accepted | Completed

  datatype NotificationType = FoodAvailable | TaskAssigned | PickupScheduled

  datatype User = User(
    id: string,
    name: string,
    email: string,
    role: Role,
    location: Option<string>,
    phone: Option<string>,
    image: Option<string>)

  datatype FoodItem = FoodItem(
    id: string,
    title: string,
    description: string,
    quantity: string,
    foodType: string,
    expiryDate: string,
    pickupLocation: string,
    pickupTimeFrom: string,
    pickupTimeTo: string,
    status: FoodStatus,
    donorId: string,
    donorName: string,
    createdAt: int,
    image: Option<string>)

  /** A food item as a page submits it: everything but the id, the creation
      time and the donor's display name. */
  datatype FoodDraft = FoodDraft(
    title: string,
    description: string,
    quantity: string,
    foodType: string,
    expiryDate: string,
    pickupLocation: string,
    pickupTimeFrom: string,
    pickupTimeTo: string,
    status: FoodStatus,
    donorId: string,
    image: Option<string>)

  datatype Task = Task(
    id: string,
    foodItemId: string,
    volunteerId: Option<string>,
    status: TaskStatus,
    createdAt: int,
    scheduledPickupTime: Option<int>)

  /** A notification's text: one of the three templates the lifecycle fills in
      with a food item's title, or text stored as it is. */
  datatype Message =
    | NewFoodAvailable(title: string)
    | DonationAccepted(title: string)
    | DonationPickedUp(title: string)
    | Plain(text: string)

  /** The text a user reads. */
  function MessageText(m: Message): string {
    match m
    case NewFoodAvailable(t) => "New food available: " + t
    case DonationAccepted(t) => "A volunteer has accepted to pick up your donation: " + t
    case DonationPickedUp(t) => "Your donation has been picked up: " + t
    case Plain(text) => text
  }

  datatype Notification = Notification(
    id: string,
    userId: string,
    message: Message,
    read: bool,
    createdAt: int,
    kind: NotificationType,
    actionUrl: Option<string>)

  /** The store-side failure behind a thrown error. */
  datatype StoreError = StoreFailure | NoMatchingRow

  function FoodStatusName(s: FoodStatus): string {
    match s
    case Available => "available"
    case Assigned => "assigned"
    case Completed => "completed"
  }

  function TaskStatusName(s: TaskStatus): string {
    match s
    case Pending => "pending"
    case Accepted => "accepted"
    case Completed => "completed"
  }

  /** The status a food item has while its pickup task has status `t`. */
  function PairedFoodStatus(t: TaskStatus): FoodStatus {
    match t
    case Pending => Available
    case Accepted => Assigned
    case Completed => FoodStatus.Completed
  }

  /** The two task transitions that notify the donor: a volunteer accepting
      the pickup, and the pickup being completed. */
  datatype PickupStep = Acceptance | Completion

  function StepStatus(step: PickupStep): TaskStatus {
    match step
    case Acceptance => Accepted
    case Completion => TaskStatus.Completed
  }

  function StepMessage(step: PickupStep, title: string): Message {
    match step
    case Acceptance => DonationAccepted(title)
    case Completion => DonationPickedUp(title)
  }

  function StepKind(step: PickupStep): NotificationType {
    match step
    case Acceptance => TaskAssigned
    case Completion => PickupScheduled
  }

  /** The id the in-memory store gives to the `n`-th record: `(n).toString()`. */
  function IdString(n: nat): string {
    Text.NatToString(n)
  }

  /** The link to a food item's details page: `/food/{id}`. */
  function FoodUrl(id: string): string {
    "/food/" + id
  }

  /** The image links of the seed data and of the card's fallback picture. */
  function UnsplashPhoto(photo: string, width: string): string {
    "https://images.unsplash.com/photo-" + photo + "?q=80&w=" + width
  }

  /** Three days in milliseconds: the "expiring soon" window. */
  const ExpiringWindowMs: int := 3 * 24 * 60 * 60 * 1000

  /** Where a signed-in user lands: donors on their donations, volunteers on
      the task board, everyone else on the food list. */
  function HomeRoute(role: Role): (r: string)
    ensures r in ["/donations", "/tasks", "/food"]
    ensures r == "/donations" <==> role == Donor
    ensures r == "/tasks" <==> role == Volunteer
    ensures r == "/food" <==> role == Beneficiary
  {
    match role
    case Donor => "/donations"
    case Volunteer => "/tasks"
    case Beneficiary => "/food"
  }

  /** Where the login and registration pages send a user the provider
      answered with: the user's home route; nowhere when there is none. */
  function LandingRoute(user: Option<User>): (r: Option<string>)
    ensures r.None? <==> user.None?
    ensures r.Some? ==> r.value == HomeRoute(user.value.role)
  {
    if user.Some? then Some(HomeRoute(user.value.role)) else None
  }

  /** Each role has its own landing page. */
  lemma HomeRouteInjective(a: Role, b: Role)
    ensures HomeRoute(a) == HomeRoute(b) <==> a == b
  {
    assert |"/donations"| == 10 && |"/tasks"| == 6 && |"/food"| == 5;
  }
}
