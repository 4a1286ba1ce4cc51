/** The email marketing manager: contact and campaign lists with id-keyed edits, a
    CSV contact import, the CSV export text, the contact search and filters, and the
    tag editor of the contact forms. */
module EmailManager {
  import opened Seqs
  import opened Strings

  datatype ContactStatus = Active | Unsubscribed | Bounced

  function StatusName(s: ContactStatus): string {
    match s
    case Active => "active"
    case Unsubscribed => "unsubscribed"
    case Bounced => "bounced"
  }

  datatype Contact = Contact(
    id: string, email: string, name: Option<string>, source: string,
    subscribedAt: int, lastEmailSent: Option<int>, status: ContactStatus, tags: seq<string>)

  datatype CampaignStatus = Draft | Scheduled | Sending | Sent

  datatype CampaignMetrics = CampaignMetrics(
    sent: int, delivered: int, openedCount: int, clicked: int, bounced: int, unsubscribed: int)

  datatype Campaign = Campaign(
    id: string, name: string, subject: string, status: CampaignStatus, createdAt: int,
    scheduledFor: Option<int>, sentAt: Option<int>, recipientCount: int, metrics: CampaignMetrics)

  /** What the contact forms submit. */
  datatype ContactFields = ContactFields(
    email: string, name: Option<string>, source: string, status: ContactStatus, tags: seq<string>)

  /** What the campaign forms submit; the scheduled date is already a timestamp. */
  datatype CampaignFields = CampaignFields(
    name: string, subject: string, status: CampaignStatus, scheduledFor: Option<int>)

  const ZeroMetrics: CampaignMetrics := CampaignMetrics(0, 0, 0, 0, 0, 0)

  // ---------------------------------------------------------------------------
  // Id-keyed list edits.

  function NewContact(f: ContactFields, now: nat): Contact {
    Contact(NatToString(now), f.email, f.name, f.source, now, None, f.status, f.tags)
  }

  function ApplyContact(c: Contact, f: ContactFields): Contact {
    c.(email := f.email, name := f.name, source := f.source, status := f.status, tags := f.tags)
  }

  /** `updateContact` */
  function UpdateContactById(s: seq<Contact>, id: string, f: ContactFields): (r: seq<Contact>)
    ensures |r| == |s|
    ensures forall k :: 0 <= k < |s| ==> r[k] == if s[k].id == id then ApplyContact(s[k], f) else s[k]
  {
    seq(|s|, k requires 0 <= k < |s| => if s[k].id == id then ApplyContact(s[k], f) else s[k])
  }

  /** The same edit twice is the edit once; an unknown id changes nothing. */
  lemma UpdateContactIdempotent(s: seq<Contact>, id: string, f: ContactFields)
    ensures UpdateContactById(UpdateContactById(s, id, f), id, f) == UpdateContactById(s, id, f)
    ensures (forall k :: 0 <= k < |s| ==> s[k].id != id) ==> UpdateContactById(s, id, f) == s
  {
    var once := UpdateContactById(s, id, f);
    var twice := UpdateContactById(once, id, f);
    assert forall k :: 0 <= k < |s| ==> twice[k] == once[k];
    if forall k :: 0 <= k < |s| ==> s[k].id != id {
      assert forall k :: 0 <= k < |s| ==> once[k] == s[k];
    }
  }

  /** `deleteContact` */
  function DeleteContactById(s: seq<Contact>, id: string): (r: seq<Contact>)
    ensures forall c :: c in r ==> c in s && c.id != id
    ensures forall c :: c in s && c.id != id ==> c in r
    ensures forall c :: c in s ==> multiset(r)[c] == if c.id != id then multiset(s)[c] else 0
    ensures IsSubseq(r, s)
  {
    FilterIsSubseq(s, (c: Contact) => c.id != id);
    FilterCount(s, (c: Contact) => c.id != id);
    Filter(s, (c: Contact) => c.id != id)
  }

  function NewCampaign(f: CampaignFields, now: nat): Campaign {
    Campaign(NatToString(now), f.name, f.subject, f.status, now, f.scheduledFor, None, 0, ZeroMetrics)
  }

  function ApplyCampaign(c: Campaign, f: CampaignFields): Campaign {
    c.(name := f.name, subject := f.subject, status := f.status, scheduledFor := f.scheduledFor)
  }

  /** `updateCampaign` */
  function UpdateCampaignById(s: seq<Campaign>, id: string, f: CampaignFields): (r: seq<Campaign>)
    ensures |r| == |s|
    ensures forall k :: 0 <= k < |s| ==> r[k] == if s[k].id == id then ApplyCampaign(s[k], f) else s[k]
  {
    seq(|s|, k requires 0 <= k < |s| => if s[k].id == id then ApplyCampaign(s[k], f) else s[k])
  }

  /** An edit keeps every campaign's metrics, recipients, and creation and send times. */
  lemma UpdateCampaignKeepsHistory(s: seq<Campaign>, id: string, f: CampaignFields, k: nat)
    requires k < |s|
    ensures UpdateCampaignById(s, id, f)[k].metrics == s[k].metrics
    ensures UpdateCampaignById(s, id, f)[k].recipientCount == s[k].recipientCount
    ensures UpdateCampaignById(s, id, f)[k].createdAt == s[k].createdAt
    ensures UpdateCampaignById(s, id, f)[k].sentAt == s[k].sentAt
    ensures UpdateCampaignById(s, id, f)[k].id == s[k].id
  {
  }

  /** `deleteCampaign` */
  function DeleteCampaignById(s: seq<Campaign>, id: string): (r: seq<Campaign>)
    ensures forall c :: c in r ==> c in s && c.id != id
    ensures forall c :: c in s && c.id != id ==> c in r
    ensures forall c :: c in s ==> multiset(r)[c] == if c.id != id then multiset(s)[c] else 0
    ensures IsSubseq(r, s)
  {
    FilterIsSubseq(s, (c: Campaign) => c.id != id);
    FilterCount(s, (c: Campaign) => c.id != id);
    Filter(s, (c: Campaign) => c.id != id)
  }

  // ---------------------------------------------------------------------------
  // CSV import: first line skipped, columns email, name, tags separated by ';'.

  /** The contact one data line becomes, before the email filter.  `index` counts
      data lines from 0. */
  function CsvContact(line: string, index: nat, now: nat): (c: Contact)
    ensures c.email == Trim(Split(line, ',')[0])
    ensures c.name.Some? <==> |Split(line, ',')| >= 2 && Trim(Split(line, ',')[1]) != ""
    ensures c.name.Some? ==> c.name.value == Trim(Split(line, ',')[1])
    ensures |Split(line, ',')| >= 3 && Trim(Split(line, ',')[2]) != "" ==>
      c.tags == Split(Trim(Split(line, ',')[2]), ';')
    ensures !(|Split(line, ',')| >= 3 && Trim(Split(line, ',')[2]) != "") ==> c.tags == []
    ensures c.source == "csv_upload" && c.status == Active && c.subscribedAt == now
  {
    var values := Split(line, ',');
    var name := if |values| >= 2 && Trim(values[1]) != "" then Some(Trim(values[1])) else None;
    var tags := if |values| >= 3 && Trim(values[2]) != "" then Split(Trim(values[2]), ';') else [];
    Contact("csv_" + NatToString(now) + "_" + NatToString(index), Trim(values[0]), name,
      "csv_upload", now, None, Active, tags)
  }

  function CsvContacts(lines: seq<string>, now: nat): (r: seq<Contact>)
    ensures |r| == |lines|
    ensures forall k :: 0 <= k < |lines| ==> r[k] == CsvContact(lines[k], k, now)
  {
    seq(|lines|, k requires 0 <= k < |lines| => CsvContact(lines[k], k, now))
  }

  predicate Importable(c: Contact) {
    c.email != "" && '@' in c.email
  }

  /** The contacts `handleFileUpload` appends for the file text `csv`. */
  function ParseCsv(csv: string, now: nat): (r: seq<Contact>)
    ensures forall c :: c in r ==> '@' in c.email && c.source == "csv_upload" && c.status == Active
    ensures IsSubseq(r, CsvContacts(Split(csv, '\n')[1..], now))
    ensures forall c :: c in CsvContacts(Split(csv, '\n')[1..], now) && Importable(c) ==> c in r
  {
    var rows := CsvContacts(Split(csv, '\n')[1..], now);
    FilterIsSubseq(rows, Importable);
    Filter(rows, Importable)
  }

  /** Every imported contact comes from a line after the first. */
  lemma ParsedFromDataLine(csv: string, now: nat, c: Contact)
    requires c in ParseCsv(csv, now)
    ensures exists k :: 1 <= k < |Split(csv, '\n')| && c == CsvContact(Split(csv, '\n')[k], k - 1, now)
  {
    var lines := Split(csv, '\n');
    var rows := CsvContacts(lines[1..], now);
    assert c in rows;
    var m :| 0 <= m < |rows| && rows[m] == c;
    assert lines[1..][m] == lines[m + 1];
  }

  /** A file holding only a header line imports nothing. */
  lemma HeaderOnly(header: string, now: nat)
    requires '\n' !in header
    ensures ParseCsv(header, now) == []
  {
    SplitNoSeparator(header, '\n');
    assert Split(header, '\n')[1..] == [];
  }

  // ---------------------------------------------------------------------------
  // CSV export; the ISO date of a timestamp is a parameter.

  const HeaderColumns: seq<string> := ["Email", "Name", "Source", "Subscribed Date", "Status", "Tags"]

  const Header: string := Join(HeaderColumns, ",")

  function ExportFields(c: Contact, iso: int -> string): seq<string> {
    [c.email, c.name.GetOr(""), c.source, iso(c.subscribedAt), StatusName(c.status), Join(c.tags, ";")]
  }

  function ExportLine(c: Contact, iso: int -> string): string {
    Join(ExportFields(c, iso), ",")
  }

  function ExportRows(cs: seq<Contact>, iso: int -> string): (r: seq<string>)
    ensures |r| == |cs|
    ensures forall k :: 0 <= k < |cs| ==> r[k] == ExportLine(cs[k], iso)
  {
    seq(|cs|, k requires 0 <= k < |cs| => ExportLine(cs[k], iso))
  }

  lemma HeaderHasNoBreak()
    ensures '\n' !in Header
  {
    var h := HeaderColumns;
    forall j | 0 <= j < |h| ensures '\n' !in h[j] {
      if j == 0 { assert h[j] == "Email"; }
      else if j == 1 { assert h[j] == "Name"; }
      else if j == 2 { assert h[j] == "Source"; }
      else if j == 3 { assert h[j] == "Subscribed Date"; }
      else if j == 4 { assert h[j] == "Status"; }
      else { assert h[j] == "Tags"; }
    }
    JoinAvoids(h, ",", '\n');
  }

  /** `exportContacts`' text */
  function Export(cs: seq<Contact>, iso: int -> string): string {
    Join([Header] + ExportRows(cs, iso), "\n")
  }

  /** Splitting the export at line breaks gives the header and then one line per
      contact in list order, as long as no field holds a line break. */
  lemma ExportLines(cs: seq<Contact>, iso: int -> string)
    requires forall k, j :: 0 <= k < |cs| && 0 <= j < 6 ==> '\n' !in ExportFields(cs[k], iso)[j]
    ensures Split(Export(cs, iso), '\n') == [Header] + ExportRows(cs, iso)
  {
    var lines := [Header] + ExportRows(cs, iso);
    forall i | 0 <= i < |lines| ensures '\n' !in lines[i] {
      if i == 0 {
        HeaderHasNoBreak();
      } else {
        assert lines[i] == ExportLine(cs[i - 1], iso);
        JoinAvoids(ExportFields(cs[i - 1], iso), ",", '\n');
      }
    }
    SplitJoin(lines, '\n');
  }

  /** Each exported line splits back into its six columns when no field holds a comma. */
  lemma ExportColumns(c: Contact, iso: int -> string)
    requires forall j :: 0 <= j < 6 ==> ',' !in ExportFields(c, iso)[j]
    ensures Split(ExportLine(c, iso), ',') == ExportFields(c, iso)
    ensures |Split(ExportLine(c, iso), ',')| == 6
  {
    SplitJoin(ExportFields(c, iso), ',');
  }

  // ---------------------------------------------------------------------------
  // Search, filters and counts.

  predicate MatchesSearch(c: Contact, term: string) {
    Contains(Lower(c.email), Lower(term)) ||
    (c.name.Some? && c.name.value != "" && Contains(Lower(c.name.value), Lower(term)))
  }

  predicate MatchesStatus(c: Contact, statusFilter: string) {
    statusFilter == "all" || StatusName(c.status) == statusFilter
  }

  predicate MatchesSource(c: Contact, sourceFilter: string) {
    sourceFilter == "all" || c.source == sourceFilter
  }

  predicate Shown(c: Contact, term: string, statusFilter: string, sourceFilter: string) {
    MatchesSearch(c, term) && MatchesStatus(c, statusFilter) && MatchesSource(c, sourceFilter)
  }

  /** `filteredContacts` */
  function FilteredContacts(cs: seq<Contact>, term: string, statusFilter: string, sourceFilter: string): (r: seq<Contact>)
    ensures forall c :: c in r ==> c in cs && Shown(c, term, statusFilter, sourceFilter)
    ensures forall c :: c in cs && Shown(c, term, statusFilter, sourceFilter) ==> c in r
    ensures forall c :: c in cs ==>
      multiset(r)[c] == if Shown(c, term, statusFilter, sourceFilter) then multiset(cs)[c] else 0
    ensures IsSubseq(r, cs)
  {
    FilterIsSubseq(cs, (c: Contact) => Shown(c, term, statusFilter, sourceFilter));
    FilterCount(cs, (c: Contact) => Shown(c, term, statusFilter, sourceFilter));
    Filter(cs, (c: Contact) => Shown(c, term, statusFilter, sourceFilter))
  }

  /** An empty search with both filters on 'all' shows every contact in order. */
  lemma DefaultFiltersShowAll(cs: seq<Contact>)
    ensures FilteredContacts(cs, "", "all", "all") == cs
  {
    forall c | c in cs ensures Shown(c, "", "all", "all") {
      ContainsEmpty(Lower(c.email));
    }
    FilterAll(cs, (c: Contact) => Shown(c, "", "all", "all"));
  }

  function ActiveCount(cs: seq<Contact>): (n: nat)
    ensures n <= |cs|
  {
    |Filter(cs, (c: Contact) => c.status == Active)|
  }

  function SentCount(cs: seq<Campaign>): (n: nat)
    ensures n <= |cs|
  {
    |Filter(cs, (c: Campaign) => c.status == Sent)|
  }

  /** Removing a contact never raises the active count. */
  lemma {:induction false} DeleteLowersActive(cs: seq<Contact>, id: string)
    ensures ActiveCount(DeleteContactById(cs, id)) <= ActiveCount(cs)
  {
    SubseqFilterLength(DeleteContactById(cs, id), cs, (c: Contact) => c.status == Active);
  }

  lemma {:induction false} SubseqFilterLength<T>(a: seq<T>, b: seq<T>, p: T -> bool)
    requires IsSubseq(a, b)
    ensures |Filter(a, p)| <= |Filter(b, p)|
    decreases |b|
  {
    if a == [] {
    } else if a[0] == b[0] && IsSubseq(a[1..], b[1..]) {
      SubseqFilterLength(a[1..], b[1..], p);
    } else {
      SubseqFilterLength(a, b[1..], p);
    }
  }

  // ---------------------------------------------------------------------------

  /** The add and edit contact forms' state. */
  class ContactForm {
    var email: string
    var name: string
    var source: string
    var status: ContactStatus
    var tags: seq<string>
    var tagInput: string

    /** The add form: empty, source 'website_signup', status fixed at active. */
    constructor ForAdd()
      ensures email == "" && name == "" && source == "website_signup" && status == Active
      ensures tags == [] && tagInput == ""
    {
      email := "";
      name := "";
      source := "website_signup";
      status := Active;
      tags := [];
      tagInput := "";
    }

    /** The edit form, filled from the contact. */
    constructor ForEdit(c: Contact)
      ensures email == c.email && name == c.name.GetOr("") && source == c.source
      ensures status == c.status && tags == c.tags && tagInput == ""
    {
      email := c.email;
      name := c.name.GetOr("");
      source := c.source;
      status := c.status;
      tags := c.tags;
      tagInput := "";
    }

    /** What submitting sends: `name || undefined`. */
    function Fields(): (f: ContactFields)
      reads this
      ensures f.name == None <==> name == ""
    {
      ContactFields(email, if name == "" then None else Some(name), source, status, tags)
    }

    /** `addTag`: the trimmed input joins the tags when non-empty and new. */
    method AddTag()
      modifies this`tags, this`tagInput
      ensures Trim(old(tagInput)) == "" || Trim(old(tagInput)) in old(tags) ==>
        tags == old(tags) && tagInput == old(tagInput)
      ensures Trim(old(tagInput)) != "" && Trim(old(tagInput)) !in old(tags) ==>
        tags == old(tags) + [Trim(old(tagInput))] && tagInput == ""
      ensures NoDuplicates(old(tags)) ==> NoDuplicates(tags)
    {
      var t := Trim(tagInput);
      if t != "" && t !in tags {
        tags := tags + [t];
        tagInput := "";
      }
    }

    /** `removeTag` */
    method RemoveTag(t: string)
      modifies this`tags
      ensures tags == RemoveAll(old(tags), t)
      ensures t !in tags
    {
      tags := RemoveAll(tags, t);
    }
  }

  predicate NoDuplicates(s: seq<string>) {
    forall i, j :: 0 <= i < j < |s| ==> s[i] != s[j]
  }

  // ---------------------------------------------------------------------------

  class EmailManager {
    var contacts: seq<Contact>
    var campaigns: seq<Campaign>

    constructor (contacts: seq<Contact>, campaigns: seq<Campaign>)
      ensures this.contacts == contacts && this.campaigns == campaigns
    {
      this.contacts := contacts;
      this.campaigns := campaigns;
    }

    /** `addContact`; id and subscription time come from `Date.now()`. */
    method AddContact(f: ContactFields, now: nat)
      modifies this`contacts
      ensures contacts == old(contacts) + [NewContact(f, now)]
    {
      contacts := contacts + [NewContact(f, now)];
    }

    /** The add form submits only with an email. */
    method SubmitNewContact(form: ContactForm, now: nat) returns (added: bool)
      modifies this`contacts
      ensures added <==> form.email != ""
      ensures added ==> contacts == old(contacts) + [NewContact(form.Fields(), now)]
      ensures !added ==> contacts == old(contacts)
    {
      added := form.email != "";
      if added {
        AddContact(form.Fields(), now);
      }
    }

    method UpdateContact(id: string, f: ContactFields)
      modifies this`contacts
      ensures contacts == UpdateContactById(old(contacts), id, f)
    {
      contacts := UpdateContactById(contacts, id, f);
    }

    method DeleteContact(id: string)
      modifies this`contacts
      ensures contacts == DeleteContactById(old(contacts), id)
    {
      contacts := DeleteContactById(contacts, id);
    }

    /** `addCampaign` as the campaign form calls it: no recipients, zero metrics. */
    method AddCampaign(f: CampaignFields, now: nat)
      modifies this`campaigns
      ensures campaigns == old(campaigns) + [NewCampaign(f, now)]
      ensures campaigns[|campaigns| - 1].metrics == ZeroMetrics
    {
      campaigns := campaigns + [NewCampaign(f, now)];
    }

    /** The campaign form submits only with a name and a subject. */
    method SubmitNewCampaign(f: CampaignFields, now: nat) returns (added: bool)
      modifies this`campaigns
      ensures added <==> f.name != "" && f.subject != ""
      ensures added ==> campaigns == old(campaigns) + [NewCampaign(f, now)]
      ensures !added ==> campaigns == old(campaigns)
    {
      added := f.name != "" && f.subject != "";
      if added {
        AddCampaign(f, now);
      }
    }

    method UpdateCampaign(id: string, f: CampaignFields)
      modifies this`campaigns
      ensures campaigns == UpdateCampaignById(old(campaigns), id, f)
    {
      campaigns := UpdateCampaignById(campaigns, id, f);
    }

    method DeleteCampaign(id: string)
      modifies this`campaigns
      ensures campaigns == DeleteCampaignById(old(campaigns), id)
    {
      campaigns := DeleteCampaignById(campaigns, id);
    }

    /** `handleFileUpload` once the file text `csv` has been read. */
    method HandleFileUpload(csv: string, now: nat)
      modifies this`contacts
      ensures contacts == old(contacts) + ParseCsv(csv, now)
    {
      contacts := contacts + ParseCsv(csv, now);
    }
  }
}
