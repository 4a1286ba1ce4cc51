/** The BrandView email prototype: contacts imported from pasted CSV text without
    duplicate emails, a mock send that puts the new campaign first, and metric bumps
    applied to the stored campaign list. */
module EmailMvp {
  import opened Seqs
  import opened Strings
  import opened Storage

  /** The pasted text as lines: split at line breaks, each trimmed, blanks dropped.
      Splitting at `\n` and trimming agrees with splitting at `\r?\n`, since trimming
      removes the `\r` left at a line's end. */
  function TrimAll(pieces: seq<string>): (r: seq<string>)
    ensures |r| == |pieces|
    ensures forall i :: 0 <= i < |pieces| ==> r[i] == Trim(pieces[i])
  {
    seq(|pieces|, i requires 0 <= i < |pieces| => Trim(pieces[i]))
  }

  function Lines(text: string): (r: seq<string>)
    ensures forall l :: l in r ==> l != "" && l in TrimAll(Split(text, '\n'))
  {
    Filter(TrimAll(Split(text, '\n')), (l: string) => l != "")
  }

  /** Text with nothing but white space imports nothing. */
  lemma BlankTextHasNoLines(text: string)
    requires AllSpace(text)
    ensures Lines(text) == []
  {
    var pieces := Split(text, '\n');
    var trimmed := TrimAll(pieces);
    forall i | 0 <= i < |pieces| ensures trimmed[i] == "" {
      forall j | 0 <= j < |pieces[i]| ensures IsSpace(pieces[i][j]) {
        SplitPieceChars(text, '\n', i, pieces[i][j]);
      }
      assert AllSpace(pieces[i]);
      TrimSpec(pieces[i]);
    }
    assert forall l :: l in trimmed ==> l == "";
    FilterNone(trimmed, (l: string) => l != "");
  }

  /** The fields of one line: `[email, name] = line.split(',').map(s => s?.trim())`. */
  datatype Row = Row(email: string, name: Option<string>)

  function ParseLine(line: string): (r: Row)
    ensures r.email == Trim(Split(line, ',')[0])
    ensures |Split(line, ',')| >= 2 <==> r.name.Some?
    ensures r.name.Some? ==> r.name.value == Trim(Split(line, ',')[1])
  {
    var fields := Split(line, ',');
    Row(Trim(fields[0]), if |fields| >= 2 then Some(Trim(fields[1])) else None)
  }

  /** `ct_${now}_${idx}` */
  function ContactId(now: nat, idx: nat): string {
    "ct_" + NatToString(now) + "_" + NatToString(idx)
  }

  predicate HasEmail(s: seq<Contact>, email: string) {
    exists i :: 0 <= i < |s| && s[i].email == email
  }

  predicate UniqueEmails(s: seq<Contact>) {
    forall i, j :: 0 <= i < j < |s| ==> s[i].email != s[j].email
  }

  /** The fields of each line, in order. */
  function Rows(lines: seq<string>): (r: seq<Row>)
    ensures |r| == |lines|
    ensures forall i :: 0 <= i < |lines| ==> r[i] == ParseLine(lines[i])
  {
    seq(|lines|, i requires 0 <= i < |lines| => ParseLine(lines[i]))
  }

  /** One `forEach` iteration: push the row's contact if its email is non-empty and new. */
  function ImportRow(acc: seq<Contact>, row: Row, idx: nat, now: nat): (r: seq<Contact>)
    ensures row.email == "" || HasEmail(acc, row.email) ==> r == acc
    ensures row.email != "" && !HasEmail(acc, row.email) ==>
      r == acc + [Contact(ContactId(now, idx), row.email, row.name)]
  {
    if row.email != "" && !HasEmail(acc, row.email) then
      acc + [Contact(ContactId(now, idx), row.email, row.name)]
    else acc
  }

  /** The list `importCSV` has built from `acc` after its first `n` rows. */
  function Imported(acc: seq<Contact>, rows: seq<Row>, n: nat, now: nat): seq<Contact>
    requires n <= |rows|
  {
    if n == 0 then acc else ImportRow(Imported(acc, rows, n - 1, now), rows[n - 1], n - 1, now)
  }

  /** The contact row `j` contributes, when it contributes one. */
  predicate AddedFrom(c: Contact, rows: seq<Row>, j: nat, now: nat)
    requires j < |rows|
  {
    c == Contact(ContactId(now, j), rows[j].email, rows[j].name) && c.email != ""
  }

  /** The existing contacts stay an unchanged prefix. */
  lemma {:induction false} ImportKeepsPrefix(acc: seq<Contact>, rows: seq<Row>, n: nat, now: nat)
    requires n <= |rows|
    ensures |Imported(acc, rows, n, now)| >= |acc|
    ensures Imported(acc, rows, n, now)[..|acc|] == acc
  {
    if n > 0 {
      ImportKeepsPrefix(acc, rows, n - 1, now);
      var prev := Imported(acc, rows, n - 1, now);
      var r := Imported(acc, rows, n, now);
      assert r[..|prev|] == prev;
      assert r[..|acc|] == r[..|prev|][..|acc|];
    }
  }

  /** Every contact added comes from one row, carrying that row's trimmed fields and an
      email that was not already present. */
  lemma {:induction false} ImportAddsOnlyNew(acc: seq<Contact>, rows: seq<Row>, n: nat, now: nat)
    requires n <= |rows|
    ensures forall k :: |acc| <= k < |Imported(acc, rows, n, now)| ==>
      !HasEmail(acc, Imported(acc, rows, n, now)[k].email) &&
      exists j :: 0 <= j < n && AddedFrom(Imported(acc, rows, n, now)[k], rows, j, now)
  {
    if n > 0 {
      ImportAddsOnlyNew(acc, rows, n - 1, now);
      ImportKeepsPrefix(acc, rows, n - 1, now);
      var prev := Imported(acc, rows, n - 1, now);
      var r := Imported(acc, rows, n, now);
      forall k | |acc| <= k < |r|
        ensures !HasEmail(acc, r[k].email) && exists j :: 0 <= j < n && AddedFrom(r[k], rows, j, now)
      {
        if k < |prev| {
          assert r[k] == prev[k];
        } else {
          assert r[k] == Contact(ContactId(now, n - 1), rows[n - 1].email, rows[n - 1].name);
          assert AddedFrom(r[k], rows, n - 1, now);
          assert !HasEmail(prev, r[k].email);
          assert forall m :: 0 <= m < |acc| ==> acc[m] == prev[m];
        }
      }
    }
  }

  /** Email uniqueness is preserved, duplicates inside one batch included. */
  lemma {:induction false} ImportKeepsUnique(acc: seq<Contact>, rows: seq<Row>, n: nat, now: nat)
    requires n <= |rows| && UniqueEmails(acc)
    ensures UniqueEmails(Imported(acc, rows, n, now))
  {
    if n > 0 {
      ImportKeepsUnique(acc, rows, n - 1, now);
      var prev := Imported(acc, rows, n - 1, now);
      var r := Imported(acc, rows, n, now);
      if r != prev {
        forall a, b | 0 <= a < b < |r| ensures r[a].email != r[b].email {
          if b == |prev| {
            assert r[a] == prev[a];
          } else {
            assert r[a] == prev[a] && r[b] == prev[b];
          }
        }
      }
    }
  }

  /** The whole of `importCSV`'s list: every line, in order. */
  function ImportAll(acc: seq<Contact>, lines: seq<string>, now: nat): seq<Contact> {
    Imported(acc, Rows(lines), |lines|, now)
  }

  /** The body of the `forEach` callback of `importCSV` for one parsed line. */
  method AddRow(next: seq<Contact>, row: Row, idx: nat, now: nat) returns (r: seq<Contact>)
    ensures r == ImportRow(next, row, idx, now)
  {
    r := next;
    if row.email != "" && !HasEmail(next, row.email) {
      r := next + [Contact(ContactId(now, idx), row.email, row.name)];
    }
  }

  /** `importCSV`'s walk over the pasted lines: the fields of each line (a pure
      computation), then the `forEach` that pushes the new contacts. */
  method ImportLines(contacts: seq<Contact>, lines: seq<string>, now: nat) returns (next: seq<Contact>)
    ensures next == ImportAll(contacts, lines, now)
  {
    next := ImportRows(contacts, Rows(lines), now);
  }

  /** The `forEach` loop of `importCSV` over a copy of the contacts. */
  method ImportRows(contacts: seq<Contact>, rows: seq<Row>, now: nat) returns (next: seq<Contact>)
    ensures next == Imported(contacts, rows, |rows|, now)
  {
    next := contacts;
    var idx := 0;
    while idx < |rows|
      invariant 0 <= idx <= |rows|
      invariant next == Imported(contacts, rows, idx, now)
    {
      next := AddRow(next, rows[idx], idx, now);
      idx := idx + 1;
    }
  }

  /** Pasted white space changes nothing. */
  lemma BlankImportAddsNothing(acc: seq<Contact>, text: string, now: nat)
    requires AllSpace(text)
    ensures ImportAll(acc, Lines(text), now) == acc
  {
    BlankTextHasNoLines(text);
  }

  // ---------------------------------------------------------------------------

  /** The guard of `sendMock`. */
  predicate CanSend(subject: string, body: string, selected: seq<string>) {
    Trim(subject) != "" && Trim(body) != "" && |selected| > 0
  }

  /** The campaign `sendMock` creates. */
  function NewCampaign(now: nat, subject: string, body: string, selected: seq<string>): Campaign {
    Campaign("ca_" + NatToString(now), now, subject, body, selected, Metrics(0, 0, 0))
  }

  function IdIs(id: string): Campaign -> bool {
    (c: Campaign) => c.id == id
  }

  /** The position `findIndex(c => c.id === id)` finds. */
  function IndexOf(arr: seq<Campaign>, id: string): int {
    FirstIndex(arr, IdIs(id))
  }

  function Bump(c: Campaign, opens: int, clicks: int, replies: int): Campaign {
    c.(metrics := Metrics(c.metrics.opens + opens, c.metrics.clicks + clicks, c.metrics.replies + replies))
  }

  /** The list `bumpMetrics` writes: the first campaign with that id gains the deltas. */
  function BumpFirst(arr: seq<Campaign>, id: string, opens: int, clicks: int, replies: int): (r: seq<Campaign>)
    ensures |r| == |arr|
    ensures forall j :: 0 <= j < |arr| && j != IndexOf(arr, id) ==> r[j] == arr[j]
    ensures IndexOf(arr, id) >= 0 ==>
      r[IndexOf(arr, id)].metrics.opens == arr[IndexOf(arr, id)].metrics.opens + opens &&
      r[IndexOf(arr, id)].metrics.clicks == arr[IndexOf(arr, id)].metrics.clicks + clicks &&
      r[IndexOf(arr, id)].metrics.replies == arr[IndexOf(arr, id)].metrics.replies + replies
    ensures forall j :: 0 <= j < |arr| ==> r[j].id == arr[j].id
  {
    var i := IndexOf(arr, id);
    if i < 0 then arr else arr[i := Bump(arr[i], opens, clicks, replies)]
  }

  /** The three timers of a send leave a fresh campaign at 37 opens, 9 clicks, 3 replies
      and every other campaign as it was. */
  lemma ScheduledBumps(rest: seq<Campaign>, now: nat, subject: string, body: string, selected: seq<string>)
    ensures var c := NewCampaign(now, subject, body, selected);
      var r := BumpFirst(BumpFirst(BumpFirst([c] + rest, c.id, 5, 1, 0), c.id, 12, 3, 1), c.id, 20, 5, 2);
      |r| == 1 + |rest| && r[0] == c.(metrics := Metrics(37, 9, 3)) && r[1..] == rest
  {
    var c := NewCampaign(now, subject, body, selected);
    var a0 := [c] + rest;
    var a1 := BumpFirst(a0, c.id, 5, 1, 0);
    var a2 := BumpFirst(a1, c.id, 12, 3, 1);
    var a3 := BumpFirst(a2, c.id, 20, 5, 2);
    assert IndexOf(a0, c.id) == 0;
    assert a1[0] == c.(metrics := Metrics(5, 1, 0));
    assert IndexOf(a1, c.id) == 0;
    assert a2[0] == c.(metrics := Metrics(17, 4, 1));
    assert IndexOf(a2, c.id) == 0;
    assert a3[0] == c.(metrics := Metrics(37, 9, 3));
    assert a3[1..] == rest;
  }

  // ---------------------------------------------------------------------------

  class EmailMvp {
    var contacts: seq<Contact>
    var campaigns: seq<Campaign>
    var importText: string
    var subject: string
    var body: string
    var selectedIds: seq<string>
    const store: Store

    /** Contacts and campaigns start from the store, the form fields empty. */
    constructor (store: Store)
      ensures this.store == store
      ensures contacts == store.GetContacts() && campaigns == store.GetCampaigns()
      ensures importText == "" && subject == "" && body == "" && selectedIds == []
    {
      this.store := store;
      contacts := store.GetContacts();
      campaigns := store.GetCampaigns();
      importText := "";
      subject := "";
      body := "";
      selectedIds := [];
    }

    /** `toggleSelect` */
    method ToggleSelect(id: string)
      modifies this`selectedIds
      ensures selectedIds == Toggle(old(selectedIds), id)
    {
      selectedIds := Toggle(selectedIds, id);
    }

    /** `importCSV` */
    method ImportCsv(now: nat)
      modifies this`contacts, this`importText, store`data
      ensures contacts == ImportAll(old(contacts), Lines(old(importText)), now)
      ensures store.data == old(store.data)[Ns(ContactsKey) := Stored(ContactList(contacts))]
      ensures importText == ""
    {
      var next := ImportLines(contacts, Lines(importText), now);
      contacts := next;
      store.SetContacts(next);
      importText := "";
    }

    /** `sendMock`; returns the new campaign's id, which the delayed bumps use. */
    method SendMock(now: nat) returns (sent: Option<string>)
      modifies this`campaigns, this`subject, this`body, this`selectedIds, store`data
      ensures !CanSend(old(subject), old(body), old(selectedIds)) ==>
        sent == None && unchanged(this) && unchanged(store)
      ensures CanSend(old(subject), old(body), old(selectedIds)) ==>
        campaigns == [NewCampaign(now, old(subject), old(body), old(selectedIds))] + old(campaigns) &&
        store.data == old(store.data)[Ns(CampaignsKey) := Stored(CampaignList(campaigns))] &&
        sent == Some(campaigns[0].id) &&
        subject == "" && body == "" && selectedIds == []
    {
      if Trim(subject) == "" || Trim(body) == "" || |selectedIds| == 0 {
        return None;
      }
      var camp := NewCampaign(now, subject, body, selectedIds);
      var upd := [camp] + campaigns;
      campaigns := upd;
      store.SetCampaigns(upd);
      sent := Some(camp.id);
      subject := "";
      body := "";
      selectedIds := [];
    }

    /** `bumpMetrics`: works on the stored list, not on the screen's copy. */
    method BumpMetrics(id: string, opens: int, clicks: int, replies: int)
      modifies this`campaigns, store`data
      ensures IndexOf(old(store.GetCampaigns()), id) < 0 ==> unchanged(this) && unchanged(store)
      ensures IndexOf(old(store.GetCampaigns()), id) >= 0 ==>
        campaigns == BumpFirst(old(store.GetCampaigns()), id, opens, clicks, replies) &&
        store.data == old(store.data)[Ns(CampaignsKey) := Stored(CampaignList(campaigns))]
    {
      var arr := store.GetCampaigns();
      var i := FindIndex(arr, IdIs(id));
      if i >= 0 {
        arr := arr[i := Bump(arr[i], opens, clicks, replies)];
        store.SetCampaigns(arr);
        campaigns := arr;
      }
    }
  }
}
