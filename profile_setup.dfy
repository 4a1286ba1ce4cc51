/** The four-step profile setup form: a step counter from 1 to 4, a form record
    whose fields are replaced one at a time, tag toggles with a cap of five
    categories on the enabled buttons, and photo removal by position. */
module ProfileSetup {
  import opened Seqs

  datatype ProfileForm = ProfileForm(
    bio: string, location: string, website: string,
    categories: seq<string>, photos: seq<string>,
    followers: string, price: string, interests: seq<string>)

  const EmptyForm: ProfileForm := ProfileForm("", "", "", [], [], "", "", [])

  datatype Field = Bio | Location | Website | Categories | Photos | Followers | Price | Interests

  /** The value `handleInputChange` is given: text for the text inputs, a list for
      the tag and photo fields. */
  datatype FieldValue = Text(text: string) | Items(items: seq<string>)

  predicate IsListField(field: Field) {
    field == Categories || field == Photos || field == Interests
  }

  predicate Fits(field: Field, v: FieldValue) {
    v.Items? <==> IsListField(field)
  }

  function Get(f: ProfileForm, field: Field): (v: FieldValue)
    ensures Fits(field, v)
  {
    match field
    case Bio => Text(f.bio)
    case Location => Text(f.location)
    case Website => Text(f.website)
    case Categories => Items(f.categories)
    case Photos => Items(f.photos)
    case Followers => Text(f.followers)
    case Price => Text(f.price)
    case Interests => Items(f.interests)
  }

  /** `{...formData, [field]: value}` */
  function WithField(f: ProfileForm, field: Field, v: FieldValue): (r: ProfileForm)
    requires Fits(field, v)
  {
    match field
    case Bio => f.(bio := v.text)
    case Location => f.(location := v.text)
    case Website => f.(website := v.text)
    case Categories => f.(categories := v.items)
    case Photos => f.(photos := v.items)
    case Followers => f.(followers := v.text)
    case Price => f.(price := v.text)
    case Interests => f.(interests := v.items)
  }

  /** Only the named field changes, and it takes the given value. */
  lemma WithFieldOnlyNamed(f: ProfileForm, field: Field, v: FieldValue, g: Field)
    requires Fits(field, v)
    ensures Get(WithField(f, field, v), g) == if g == field then v else Get(f, g)
  {
  }

  /** Setting a field to the value it has leaves the form as it is. */
  lemma WithFieldOwnValue(f: ProfileForm, field: Field)
    ensures WithField(f, field, Get(f, field)) == f
  {
  }

  /** `photos.filter((_, k) => k !== i)` */
  function RemoveAt<T>(s: seq<T>, i: int): (r: seq<T>)
    ensures 0 <= i < |s| ==> r == s[..i] + s[i + 1..]
    ensures !(0 <= i < |s|) ==> r == s
  {
    if s == [] then []
    else
      var rest := RemoveAt(s[1..], i - 1);
      assert 0 < i <= |s| - 1 ==> s[1..][..i - 1] + s[1..][i..] == s[1..i] + s[i + 1..];
      assert 0 < i < |s| ==> s[..i] == [s[0]] + s[1..i];
      assert s == [s[0]] + s[1..];
      (if i == 0 then [] else [s[0]]) + rest
  }

  const MaxCategories := 5

  /** A category button is enabled unless five are chosen and it is not one of them. */
  predicate CategoryEnabled(categories: seq<string>, c: string) {
    !(|categories| >= MaxCategories && c !in categories)
  }

  /** A toggle through an enabled button keeps the selection within the cap. */
  lemma EnabledToggleKeepsCap(categories: seq<string>, c: string)
    requires |categories| <= MaxCategories && CategoryEnabled(categories, c)
    ensures |Toggle(categories, c)| <= MaxCategories
  {
  }

  /** Datatype describing what `onUpdate` receives. */
  datatype UserUpdate = UserUpdate(profileComplete: bool)

  const FirstStep := 1
  const LastStep := 4

  class ProfileSetup {
    var currentStep: int
    var form: ProfileForm

    predicate Valid()
      reads this
    {
      FirstStep <= currentStep <= LastStep
    }

    constructor ()
      ensures Valid() && currentStep == 1 && form == EmptyForm
    {
      currentStep := 1;
      form := EmptyForm;
    }

    /** `nextStep`: forward one step, or on the last step report completion and go
        to the dashboard. */
    method NextStep() returns (update: Option<UserUpdate>, nav: Option<string>)
      requires Valid()
      modifies this`currentStep
      ensures Valid()
      ensures old(currentStep) < LastStep ==>
        currentStep == old(currentStep) + 1 && update == None && nav == None
      ensures old(currentStep) == LastStep ==>
        currentStep == LastStep && update == Some(UserUpdate(true)) && nav == Some("/dashboard")
    {
      if currentStep < 4 {
        currentStep := currentStep + 1;
        update, nav := None, None;
      } else {
        update, nav := Some(UserUpdate(true)), Some("/dashboard");
      }
    }

    /** `prevStep`: back one step; nothing happens on the first. */
    method PrevStep()
      requires Valid()
      modifies this`currentStep
      ensures Valid()
      ensures old(currentStep) > FirstStep ==> currentStep == old(currentStep) - 1
      ensures old(currentStep) == FirstStep ==> currentStep == FirstStep
    {
      if currentStep > 1 {
        currentStep := currentStep - 1;
      }
    }

    /** `handleInputChange` */
    method HandleInputChange(field: Field, v: FieldValue)
      requires Fits(field, v)
      modifies this`form
      ensures form == WithField(old(form), field, v)
    {
      form := WithField(form, field, v);
    }

    /** `handleCategoryToggle`; through an enabled button it keeps the cap. */
    method ToggleCategory(c: string)
      modifies this`form
      ensures form == old(form).(categories := Toggle(old(form).categories, c))
      ensures |old(form).categories| <= MaxCategories && CategoryEnabled(old(form).categories, c) ==>
        |form.categories| <= MaxCategories
    {
      var updated := Toggle(form.categories, c);
      HandleInputChange(Categories, Items(updated));
    }

    /** `handleInterestToggle` */
    method ToggleInterest(i: string)
      modifies this`form
      ensures form == old(form).(interests := Toggle(old(form).interests, i))
    {
      var updated := Toggle(form.interests, i);
      HandleInputChange(Interests, Items(updated));
    }

    /** `handlePhotoUpload`, given the object URLs of the chosen files. */
    method UploadPhotos(urls: seq<string>)
      modifies this`form
      ensures form == old(form).(photos := old(form).photos + urls)
    {
      HandleInputChange(Photos, Items(form.photos + urls));
    }

    /** `removePhoto` */
    method RemovePhoto(index: int)
      modifies this`form
      ensures form == old(form).(photos := RemoveAt(old(form).photos, index))
    {
      HandleInputChange(Photos, Items(RemoveAt(form.photos, index)));
    }
  }
}
