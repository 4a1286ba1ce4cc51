/** The process-wide `window.BrandViewSession` object shared by the BrandView
    onboarding flow, the brand dashboard and the route guard.  Every field starts
    absent; each screen reads it with a fallback and writes it directly. */
module Session {
  import opened Seqs

  datatype Role = Creator | Brand

  /** A social handle added during creator onboarding. */
  datatype Social = Social(platform: string, value: string, status: string)

  /** A brand's saved interest in a candidate. */
  datatype ShortlistEntry = ShortlistEntry(id: string, note: string, addedAt: int)

  /** The dashboard route of each role. */
  function DashboardPath(r: Role): string {
    match r
    case Creator => "/brandview/dashboard/creator"
    case Brand => "/brandview/dashboard/brand"
  }

  /** `x || fallback` on an optional string: an empty string also falls back. */
  function StringOr(x: Option<string>, fallback: string): (r: string)
    ensures x.Some? && x.value != "" ==> r == x.value
    ensures x.None? || x.value == "" ==> r == fallback
  {
    if x.Some? && x.value != "" then x.value else fallback
  }

  class BrandViewSession {
    var role: Option<Role>
    var displayName: Option<string>
    var bio: Option<string>
    var timezone: Option<string>
    var niches: Option<seq<string>>
    var socials: Option<seq<Social>>
    var shortlist: Option<seq<ShortlistEntry>>

    /** `(window.BrandViewSession = {})` */
    constructor ()
      ensures role == None && displayName == None && bio == None && timezone == None
      ensures niches == None && socials == None && shortlist == None
    {
      role := None;
      displayName := None;
      bio := None;
      timezone := None;
      niches := None;
      socials := None;
      shortlist := None;
    }
  }
}
