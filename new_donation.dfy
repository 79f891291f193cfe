/** The new-donation form: its field updates, the required-field check and
    the food item it submits. The form is the page's record of field name to
    text; a field that is missing or empty counts as not filled in. */
module NewDonation {

  import opened Wrappers
  import opened Common
  import opened Seqs

  /** The form's fields; every one but the image is required. */
  const RequiredFields: seq<string> :=
    ["title", "description", "quantity", "foodType", "expiryDate", "pickupLocation", "pickupTimeFrom", "pickupTimeTo"]

  function InitialForm(): (r: map<string, string>)
    ensures forall f :: f in RequiredFields ==> f in r && r[f] == ""
    ensures "image" in r && r["image"] == ""
  {
    map["title" := "", "description" := "", "quantity" := "", "foodType" := "", "expiryDate" := "",
        "pickupLocation" := "", "pickupTimeFrom" := "", "pickupTimeTo" := "", "image" := ""]
  }

  predicate Filled(form: map<string, string>, field: string) {
    field in form && form[field] != ""
  }

  function Missing(form: map<string, string>): string -> bool {
    (field: string) => !Filled(form, field)
  }

  /** `requiredFields.filter(field => !formData[field])`. */
  function MissingFields(form: map<string, string>): (r: seq<string>)
    ensures forall f :: f in r <==> f in RequiredFields && !Filled(form, f)
    ensures IsSubseq(r, RequiredFields)
  {
    FilterIsSubseq(RequiredFields, Missing(form));
    Filter(RequiredFields, Missing(form))
  }

  /** What a submit does with the form: refuse it when a required field is
      empty, fail without a user, or hand this item to the service. */
  datatype Submission = MissingRequired | NoUser | Submit(draft: FoodDraft)

  /** `{ ...formData, status: 'available', donorId: user.id }`. The image is
      passed on as entered, empty or not. */
  function DraftOf(form: map<string, string>, donorId: string): (r: FoodDraft)
    requires forall f :: f in RequiredFields ==> f in form
    ensures r.title == form["title"] && r.description == form["description"] && r.quantity == form["quantity"]
    ensures r.foodType == form["foodType"] && r.expiryDate == form["expiryDate"]
    ensures r.pickupLocation == form["pickupLocation"]
    ensures r.pickupTimeFrom == form["pickupTimeFrom"] && r.pickupTimeTo == form["pickupTimeTo"]
    ensures r.status == Available && r.donorId == donorId
    ensures r.image == if "image" in form then Some(form["image"]) else None
  {
    FoodDraft(form["title"], form["description"], form["quantity"], form["foodType"], form["expiryDate"],
              form["pickupLocation"], form["pickupTimeFrom"], form["pickupTimeTo"], Available, donorId,
              if "image" in form then Some(form["image"]) else None)
  }

  function SubmissionOf(form: map<string, string>, user: Option<User>): (r: Submission)
    ensures r == MissingRequired <==> exists f :: f in RequiredFields && !Filled(form, f)
    ensures r == NoUser <==> (forall f :: f in RequiredFields ==> Filled(form, f)) && user.None?
    ensures r.Submit? ==> user.Some? && r.draft == DraftOf(form, user.value.id)
  {
    if |MissingFields(form)| > 0 then
      assert MissingFields(form)[0] in MissingFields(form);
      MissingRequired
    else if user.None? then NoUser
    else Submit(DraftOf(form, user.value.id))
  }

  /** The image never decides whether a form is accepted. */
  lemma ImageNotRequired(form: map<string, string>, user: Option<User>, image: string)
    ensures SubmissionOf(form["image" := image], user).Submit? == SubmissionOf(form, user).Submit?
  {
    var form' := form["image" := image];
    assert forall f :: f in RequiredFields ==> (Filled(form', f) <==> Filled(form, f));
  }

  class NewDonationPage {
    var formData: map<string, string>
    var isSubmitting: bool

    constructor ()
      ensures formData == InitialForm() && !isSubmitting
    {
      formData, isSubmitting := InitialForm(), false;
    }

    /** `handleChange` and `handleSelectChange`: the named field takes the
        value and every other field keeps its own. */
    method SetField(name: string, value: string)
      modifies this`formData
      ensures formData == old(formData)[name := value]
    {
      formData := formData[name := value];
    }

    /** `handleSubmit`: `added` is the service's answer if it is called. A
        refused form changes nothing and calls nothing; otherwise submitting
        ends whatever happens, and a successful add goes to the new item. */
    method HandleSubmit(user: Option<User>, added: Result<FoodItem, StoreError>)
      returns (submitted: Option<FoodDraft>, navigateTo: Option<string>)
      modifies this`isSubmitting
      ensures SubmissionOf(formData, user) == MissingRequired ==>
                submitted == None && navigateTo == None && isSubmitting == old(isSubmitting)
      ensures SubmissionOf(formData, user) == NoUser ==> submitted == None && navigateTo == None && !isSubmitting
      ensures SubmissionOf(formData, user).Submit? ==>
                submitted == Some(SubmissionOf(formData, user).draft) && !isSubmitting &&
                navigateTo == if added.Ok? then Some(FoodUrl(added.value.id)) else None
    {
      var s := SubmissionOf(formData, user);
      if s == MissingRequired {
        return None, None;
      }
      isSubmitting := true;
      submitted, navigateTo := None, None;
      if s.Submit? {
        submitted := Some(s.draft);
        if added.Ok? {
          navigateTo := Some(FoodUrl(added.value.id));
        }
      }
      isSubmitting := false;
    }
  }
}
