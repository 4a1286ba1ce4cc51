/** The BrandView onboarding wizard: a role-dependent step sequence walked with
    `next`/`back`, a form edited along the way, and a terminal `next` that commits
    role and form into the shared session. */
module Onboarding {
  import opened Seqs
  import opened Strings
  import opened Session

  /** `stepsByRole` */
  function StepsFor(role: Role): (r: seq<string>)
    ensures role == Creator ==> |r| == 6
    ensures role == Brand ==> |r| == 5
    ensures r[0] == "role" && r[|r| - 1] == "finish"
    ensures "socials" in r <==> role == Creator
  {
    match role
    case Creator => ["role", "basics", "niches", "socials", "preview", "finish"]
    case Brand =>
      var r := ["role", "basics", "niches", "preview", "finish"];
      assert forall i :: 0 <= i < |r| ==> r[i] != "socials";
      r
  }

  const BioMaxLength: nat := 280

  datatype Form = Form(
    displayName: string, bio: string, timezone: string,
    niches: seq<string>, socials: seq<Social>)

  class Onboarding {
    var role: Role
    var stepIndex: nat
    var form: Form
    const session: BrandViewSession

    predicate Valid()
      reads this
    {
      stepIndex < |StepsFor(role)|
    }

    /** The step on screen. */
    function Step(): string
      reads this
      requires Valid()
    {
      StepsFor(role)[stepIndex]
    }

    /** Initial state, each field falling back when the session lacks it. */
    constructor (session: BrandViewSession)
      ensures this.session == session && Valid()
      ensures role == session.role.GetOr(Creator) && stepIndex == 0
      ensures form.displayName == StringOr(session.displayName, "")
      ensures form.bio == StringOr(session.bio, "")
      ensures form.timezone == StringOr(session.timezone, "UTC")
      ensures form.niches == session.niches.GetOr([])
      ensures form.socials == session.socials.GetOr([])
    {
      this.session := session;
      role := session.role.GetOr(Creator);
      stepIndex := 0;
      form := Form(
        StringOr(session.displayName, ""), StringOr(session.bio, ""),
        StringOr(session.timezone, "UTC"), session.niches.GetOr([]), session.socials.GetOr([]));
    }

    /** `next`: one step forward, or at the last step commit and go to the dashboard. */
    method Next() returns (nav: Option<string>)
      requires Valid()
      modifies this`stepIndex
      modifies session`role, session`displayName, session`bio, session`timezone
      modifies session`niches, session`socials
      ensures Valid()
      ensures old(stepIndex) < |StepsFor(role)| - 1 ==>
        stepIndex == old(stepIndex) + 1 && nav == None && unchanged(session)
      ensures old(stepIndex) == |StepsFor(role)| - 1 ==>
        stepIndex == old(stepIndex) && nav == Some(DashboardPath(role)) &&
        session.role == Some(role) &&
        session.displayName == Some(form.displayName) && session.bio == Some(form.bio) &&
        session.timezone == Some(form.timezone) && session.niches == Some(form.niches) &&
        session.socials == Some(form.socials)
    {
      var steps := StepsFor(role);
      if stepIndex >= |steps| - 1 {
        session.role := Some(role);
        session.displayName := Some(form.displayName);
        session.bio := Some(form.bio);
        session.timezone := Some(form.timezone);
        session.niches := Some(form.niches);
        session.socials := Some(form.socials);
        nav := Some(DashboardPath(role));
        return;
      }
      stepIndex := stepIndex + 1;
      nav := None;
    }

    /** `back`: one step back, or leave the wizard from the first step. */
    method Back() returns (nav: Option<string>)
      requires Valid()
      modifies this`stepIndex
      ensures Valid()
      ensures old(stepIndex) == 0 ==> stepIndex == 0 && nav == Some("/brandview")
      ensures old(stepIndex) > 0 ==> stepIndex == old(stepIndex) - 1 && nav == None
    {
      if stepIndex == 0 {
        nav := Some("/brandview");
        return;
      }
      stepIndex := stepIndex - 1;
      nav := None;
    }

    /** The role buttons, rendered only on the `role` step. */
    method SelectRole(r: Role)
      requires Valid() && Step() == "role"
      modifies this`role
      ensures role == r && Valid()
    {
      role := r;
    }

    method SetDisplayName(v: string)
      modifies this`form
      ensures form == old(form).(displayName := v)
    {
      form := form.(displayName := v);
    }

    /** The textarea's `maxLength` keeps the bio at most 280 characters. */
    method SetBio(v: string)
      requires |v| <= BioMaxLength
      modifies this`form
      ensures form == old(form).(bio := v)
    {
      form := form.(bio := v);
    }

    method SetTimezone(v: string)
      modifies this`form
      ensures form == old(form).(timezone := v)
    {
      form := form.(timezone := v);
    }

    /** `toggleNiche` */
    method ToggleNiche(n: string)
      modifies this`form
      ensures form == old(form).(niches := Toggle(old(form.niches), n))
    {
      form := form.(niches := Toggle(form.niches, n));
    }

    /** `addSocial`: exactly one entry, marked as sample data. */
    method AddSocial(platform: string, value: string)
      modifies this`form
      ensures form == old(form).(socials := old(form.socials) + [Social(platform, value, "Sample")])
    {
      form := form.(socials := form.socials + [Social(platform, value, "Sample")]);
    }

    /** The Add button of a `SocialAdd` box: a blank input is ignored, anything else
        is added trimmed and the box is cleared.  Returns the box's new input. */
    method SubmitSocial(platform: string, input: string) returns (remaining: string)
      modifies this`form
      ensures AllSpace(input) ==> form == old(form) && remaining == input
      ensures !AllSpace(input) ==> (remaining == "" &&
        form == old(form).(socials := old(form.socials) + [Social(platform, Trim(input), "Sample")]))
      ensures forall s :: s in form.socials && s !in old(form.socials) ==>
        s.value != "" && s.value == Trim(s.value)
    {
      var v := Trim(input);
      TrimSpec(input);
      if v != "" {
        TrimIdempotent(input);
        AddSocial(platform, v);
        remaining := "";
      } else {
        remaining := input;
      }
    }
  }
}
