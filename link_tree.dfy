/** The LinkTree manager: an ordered list of links with add, edit, delete, active
    toggle and one-step reordering that renumbers the `order` fields, plus the click
    and conversion totals. */
module LinkTree {
  import opened Seqs
  import opened Strings

  datatype Analytics = Analytics(clicks: int, uniqueClicks: int, conversions: int, lastClicked: Option<int>)

  datatype Link = Link(
    id: string, title: string, url: string, description: Option<string>,
    category: string, isActive: bool, order: int, analytics: Analytics)

  /** What the add and edit forms submit. */
  datatype LinkFields = LinkFields(
    title: string, url: string, description: string, category: string, isActive: bool)

  datatype Direction = Up | Down

  /** The four links the manager starts with; `now` dates their last clicks. */
  function SampleLinks(now: int): seq<Link> {
    [
      Link("1", "Latest YouTube Video", "https://youtube.com/watch?v=abc123",
        Some("Check out my newest workout routine"), "content", true, 1,
        Analytics(1247, 1189, 23, Some(now - 3600000))),
      Link("2", "Fitness Coaching", "https://calendly.com/fitness-alex",
        Some("Book a 1-on-1 session"), "services", true, 2,
        Analytics(892, 856, 45, Some(now - 7200000))),
      Link("3", "Instagram", "https://instagram.com/fitness_alex",
        Some("Daily fitness inspiration"), "social", true, 3,
        Analytics(2156, 1987, 0, Some(now - 1800000))),
      Link("4", "Meal Plan Ebook", "https://gumroad.com/fitness-alex-ebook",
        Some("Get your free meal planning guide"), "content", true, 4,
        Analytics(567, 534, 89, Some(now - 86400000)))
    ]
  }

  function Ids(s: seq<Link>): (r: seq<string>)
    ensures |r| == |s| && forall k :: 0 <= k < |s| ==> r[k] == s[k].id
  {
    seq(|s|, k requires 0 <= k < |s| => s[k].id)
  }

  predicate UniqueIds(s: seq<Link>) {
    forall i, j :: 0 <= i < j < |s| ==> s[i].id != s[j].id
  }

  function IdIs(id: string): Link -> bool {
    (l: Link) => l.id == id
  }

  // ---------------------------------------------------------------------------
  // The list operations as functions of the old list.

  /** The link `addLink` creates: fresh id, the next order number, zero analytics. */
  function NewLink(f: LinkFields, id: string, order: int): Link {
    Link(id, f.title, f.url, Some(f.description), f.category, f.isActive, order,
      Analytics(0, 0, 0, None))
  }

  /** `{ ...link, ...updates }` with the fields the edit form sends. */
  function Apply(l: Link, f: LinkFields): Link {
    l.(title := f.title, url := f.url, description := Some(f.description),
       category := f.category, isActive := f.isActive)
  }

  /** `updateLink`: links with that id take the new fields, the rest are untouched. */
  function UpdateById(s: seq<Link>, id: string, f: LinkFields): (r: seq<Link>)
    ensures |r| == |s|
    ensures forall k :: 0 <= k < |s| ==> r[k] == if s[k].id == id then Apply(s[k], f) else s[k]
  {
    seq(|s|, k requires 0 <= k < |s| => if s[k].id == id then Apply(s[k], f) else s[k])
  }

  /** `toggleLinkActive` */
  function ToggleById(s: seq<Link>, id: string): (r: seq<Link>)
    ensures |r| == |s|
    ensures forall k :: 0 <= k < |s| ==> r[k] == if s[k].id == id then s[k].(isActive := !s[k].isActive) else s[k]
  {
    seq(|s|, k requires 0 <= k < |s| => if s[k].id == id then s[k].(isActive := !s[k].isActive) else s[k])
  }

  lemma ToggleTwice(s: seq<Link>, id: string)
    ensures ToggleById(ToggleById(s, id), id) == s
  {
    var r := ToggleById(ToggleById(s, id), id);
    assert forall k :: 0 <= k < |s| ==> r[k] == s[k];
  }

  /** `deleteLink`: the others stay, in order, with their order fields as they were. */
  function DeleteById(s: seq<Link>, id: string): (r: seq<Link>)
    ensures forall l :: l in r ==> l in s && l.id != id
    ensures forall l :: l in s && l.id != id ==> l in r
    ensures forall l :: l in s ==> multiset(r)[l] == if l.id != id then multiset(s)[l] else 0
    ensures IsSubseq(r, s)
  {
    FilterIsSubseq(s, (l: Link) => l.id != id);
    FilterCount(s, (l: Link) => l.id != id);
    Filter(s, (l: Link) => l.id != id)
  }

  /** Where the moved link ends up: one step, unless it is already at that end. */
  function Target(n: nat, i: nat, dir: Direction): (j: nat)
    requires i < n
    ensures j < n
  {
    if dir == Up && i > 0 then i - 1
    else if dir == Down && i < n - 1 then i + 1
    else i
  }

  function Swap(s: seq<Link>, i: nat, j: nat): (r: seq<Link>)
    requires i < |s| && j < |s|
    ensures |r| == |s|
  {
    s[i := s[j]][j := s[i]]
  }

  /** `newLinks.map((link, index) => ({ ...link, order: index + 1 }))` */
  function Renumber(s: seq<Link>): (r: seq<Link>)
    ensures |r| == |s|
    ensures forall k :: 0 <= k < |s| ==> r[k] == s[k].(order := k + 1)
  {
    seq(|s|, k requires 0 <= k < |s| => s[k].(order := k + 1))
  }

  /** `reorderLinks` */
  function Reorder(s: seq<Link>, id: string, dir: Direction): seq<Link> {
    var i := FirstIndex(s, IdIs(id));
    if i == -1 then s else Renumber(Swap(s, i, Target(|s|, i, dir)))
  }

  lemma SwapIds(s: seq<Link>, i: nat, j: nat)
    requires i < |s| && j < |s|
    ensures multiset(Ids(Swap(s, i, j))) == multiset(Ids(s))
    ensures Ids(Swap(s, i, j)) == Ids(s)[i := s[j].id][j := s[i].id]
  {
    var a := Ids(s);
    assert Ids(Swap(s, i, j)) == a[i := a[j]][j := a[i]];
  }

  /** A reorder of a known id moves ids around without losing or inventing any, and
      numbers the list 1, 2, 3, ... by position. */
  lemma ReorderPermutes(s: seq<Link>, id: string, dir: Direction)
    requires FirstIndex(s, IdIs(id)) >= 0
    ensures |Reorder(s, id, dir)| == |s|
    ensures multiset(Ids(Reorder(s, id, dir))) == multiset(Ids(s))
    ensures forall k :: 0 <= k < |s| ==> Reorder(s, id, dir)[k].order == k + 1
  {
    var i := FirstIndex(s, IdIs(id));
    var t := Swap(s, i, Target(|s|, i, dir));
    SwapIds(s, i, Target(|s|, i, dir));
    assert Ids(Renumber(t)) == Ids(t);
  }

  lemma ReorderUnknown(s: seq<Link>, id: string, dir: Direction)
    requires forall k :: 0 <= k < |s| ==> s[k].id != id
    ensures Reorder(s, id, dir) == s
  {
  }

  /** `[...links]` and the destructuring swap of the moved link with its neighbour. */
  method SwappedCopy(prev: seq<Link>, i: nat, dir: Direction) returns (r: seq<Link>)
    requires i < |prev|
    ensures r == Swap(prev, i, Target(|prev|, i, dir))
  {
    var a := new Link[|prev|](k requires 0 <= k < |prev| => prev[k]);
    assert a[..] == prev;
    if dir == Up && i > 0 {
      a[i], a[i - 1] := a[i - 1], a[i];
    } else if dir == Down && i < a.Length - 1 {
      a[i], a[i + 1] := a[i + 1], a[i];
    }
    r := a[..];
  }

  /** A reorder of a known id swaps the ids at the link's position and its target. */
  lemma ReorderIds(s: seq<Link>, id: string, dir: Direction)
    requires FirstIndex(s, IdIs(id)) >= 0
    ensures var i := FirstIndex(s, IdIs(id)); var j := Target(|s|, i, dir);
      Ids(Reorder(s, id, dir)) == Ids(s)[i := s[j].id][j := s[i].id]
  {
    var i := FirstIndex(s, IdIs(id));
    var t := Swap(s, i, Target(|s|, i, dir));
    SwapIds(s, i, Target(|s|, i, dir));
    assert Ids(Renumber(t)) == Ids(t);
  }

  /** 'up' away from the top swaps exactly positions i - 1 and i. */
  lemma ReorderUpSwaps(s: seq<Link>, id: string)
    requires FirstIndex(s, IdIs(id)) > 0
    ensures var i := FirstIndex(s, IdIs(id));
      Ids(Reorder(s, id, Up)) == Ids(s)[i - 1 := s[i].id][i := s[i - 1].id]
  {
    var i := FirstIndex(s, IdIs(id));
    ReorderIds(s, id, Up);
    var a := Ids(s);
    assert a[i := a[i - 1]][i - 1 := a[i]] == a[i - 1 := a[i]][i := a[i - 1]];
  }

  lemma SwapSelf(s: seq<Link>, i: nat)
    requires i < |s|
    ensures Swap(s, i, i) == s
  {
    var t := Swap(s, i, i);
    assert forall k :: 0 <= k < |s| ==> t[k] == s[k];
  }

  /** 'up' on the first link and 'down' on the last move nothing; only the order
      fields are renumbered. */
  lemma ReorderAtEnds(s: seq<Link>, id: string, dir: Direction)
    requires FirstIndex(s, IdIs(id)) >= 0
    requires dir == Up ==> FirstIndex(s, IdIs(id)) == 0
    requires dir == Down ==> FirstIndex(s, IdIs(id)) == |s| - 1
    ensures Reorder(s, id, dir) == Renumber(s)
  {
    var i := FirstIndex(s, IdIs(id));
    assert Target(|s|, i, dir) == i;
    SwapSelf(s, i);
  }

  /** After 'up' on a link with distinct ids, it is found one place higher. */
  lemma FoundAfterUp(s: seq<Link>, id: string)
    requires UniqueIds(s) && FirstIndex(s, IdIs(id)) > 0
    ensures FirstIndex(Reorder(s, id, Up), IdIs(id)) == FirstIndex(s, IdIs(id)) - 1
  {
    var i := FirstIndex(s, IdIs(id));
    var t := Reorder(s, id, Up);
    ReorderUpSwaps(s, id);
    assert Ids(t)[i - 1] == id;
    forall k | 0 <= k < i - 1 ensures !IdIs(id)(t[k]) {
      assert Ids(t)[k] == Ids(s)[k];
      assert s[k].id != s[i].id;
    }
    FirstIndexIs(t, IdIs(id), i - 1);
  }

  /** With distinct ids, 'up' and then 'down' on a link that could move up gives the
      original id order back. */
  lemma UpThenDown(s: seq<Link>, id: string)
    requires UniqueIds(s) && FirstIndex(s, IdIs(id)) > 0
    ensures Ids(Reorder(Reorder(s, id, Up), id, Down)) == Ids(s)
  {
    var i := FirstIndex(s, IdIs(id));
    var t := Reorder(s, id, Up);
    ReorderUpSwaps(s, id);
    FoundAfterUp(s, id);
    assert Target(|t|, i - 1, Down) == i;
    ReorderIds(t, id, Down);
    var a := Ids(s);
    assert Ids(t) == a[i - 1 := a[i]][i := a[i - 1]];
    assert t[i].id == a[i - 1] && t[i - 1].id == a[i];
    SwapBack(a, i - 1, i);
  }

  /** `totalClicks` */
  function TotalClicks(s: seq<Link>): int {
    if s == [] then 0 else s[0].analytics.clicks + TotalClicks(s[1..])
  }

  /** `totalConversions` */
  function TotalConversions(s: seq<Link>): int {
    if s == [] then 0 else s[0].analytics.conversions + TotalConversions(s[1..])
  }

  lemma {:induction false} TotalsAppend(a: seq<Link>, b: seq<Link>)
    ensures TotalClicks(a + b) == TotalClicks(a) + TotalClicks(b)
    ensures TotalConversions(a + b) == TotalConversions(a) + TotalConversions(b)
  {
    if a == [] {
      assert a + b == b;
    } else {
      assert (a + b)[1..] == a[1..] + b;
      TotalsAppend(a[1..], b);
    }
  }

  /** A new link starts at zero, so adding one leaves both totals unchanged. */
  lemma AddKeepsTotals(s: seq<Link>, f: LinkFields, id: string, order: int)
    ensures TotalClicks(s + [NewLink(f, id, order)]) == TotalClicks(s)
    ensures TotalConversions(s + [NewLink(f, id, order)]) == TotalConversions(s)
  {
    TotalsAppend(s, [NewLink(f, id, order)]);
  }

  /** Edits and toggles keep the analytics, so neither changes the totals. */
  lemma {:induction false} UpdateKeepsTotals(s: seq<Link>, id: string, f: LinkFields)
    ensures TotalClicks(UpdateById(s, id, f)) == TotalClicks(s)
    ensures TotalClicks(ToggleById(s, id)) == TotalClicks(s)
    ensures TotalConversions(UpdateById(s, id, f)) == TotalConversions(s)
    ensures TotalConversions(ToggleById(s, id)) == TotalConversions(s)
  {
    if s != [] {
      UpdateKeepsTotals(s[1..], id, f);
      assert UpdateById(s, id, f)[1..] == UpdateById(s[1..], id, f);
      assert ToggleById(s, id)[1..] == ToggleById(s[1..], id);
    }
  }

  lemma SampleTotals(now: int)
    ensures TotalClicks(SampleLinks(now)) == 4862
    ensures TotalConversions(SampleLinks(now)) == 157
  {
    var s := SampleLinks(now);
    assert TotalClicks(s[3..]) == 567 && TotalConversions(s[3..]) == 89 by {
      assert s[3..][1..] == [];
    }
    assert s[2..][1..] == s[3..] && s[1..][1..] == s[2..];
    assert TotalClicks(s[2..]) == 2156 + 567;
    assert TotalClicks(s[1..]) == 892 + 2156 + 567;
    assert TotalConversions(s[2..]) == 89;
    assert TotalConversions(s[1..]) == 45 + 89;
  }

  function OrderKey(l: Link): int { l.order }

  /** After a reorder of a known id the list is already in `order`, so the render
      sort leaves it as it is. */
  lemma ReorderedRendersInPlace(s: seq<Link>, id: string, dir: Direction)
    requires FirstIndex(s, IdIs(id)) >= 0
    ensures StableSort(Reorder(s, id, dir), OrderKey) == Reorder(s, id, dir)
  {
    ReorderPermutes(s, id, dir);
    StableSortSorted(Reorder(s, id, dir), OrderKey);
  }

  // ---------------------------------------------------------------------------

  class LinkTree {
    var links: seq<Link>

    constructor (now: int)
      ensures links == SampleLinks(now)
    {
      links := SampleLinks(now);
    }

    /** `addLink`; the id is `Date.now().toString()`. */
    method AddLink(f: LinkFields, now: nat)
      modifies this
      ensures links == old(links) + [NewLink(f, NatToString(now), |old(links)| + 1)]
    {
      links := links + [NewLink(f, NatToString(now), |links| + 1)];
    }

    /** The add form submits only with a title and a URL. */
    method SubmitAdd(f: LinkFields, now: nat) returns (added: bool)
      modifies this
      ensures added <==> f.title != "" && f.url != ""
      ensures added ==> links == old(links) + [NewLink(f, NatToString(now), |old(links)| + 1)]
      ensures !added ==> links == old(links)
    {
      added := f.title != "" && f.url != "";
      if added {
        AddLink(f, now);
      }
    }

    method UpdateLink(id: string, f: LinkFields)
      modifies this
      ensures links == UpdateById(old(links), id, f)
    {
      links := UpdateById(links, id, f);
    }

    /** The edit form submits only with a title and a URL. */
    method SubmitEdit(id: string, f: LinkFields) returns (saved: bool)
      modifies this
      ensures saved <==> f.title != "" && f.url != ""
      ensures saved ==> links == UpdateById(old(links), id, f)
      ensures !saved ==> links == old(links)
    {
      saved := f.title != "" && f.url != "";
      if saved {
        UpdateLink(id, f);
      }
    }

    method DeleteLink(id: string)
      modifies this
      ensures links == DeleteById(old(links), id)
    {
      links := DeleteById(links, id);
    }

    method ToggleLinkActive(id: string)
      modifies this
      ensures links == ToggleById(old(links), id)
    {
      links := ToggleById(links, id);
    }

    /** `reorderLinks`: find, copy into a fresh array, swap in place, renumber. */
    method ReorderLinks(id: string, dir: Direction)
      modifies this
      ensures links == Reorder(old(links), id, dir)
    {
      var i := FindIndex(links, IdIs(id));
      if i == -1 {
        return;
      }
      var swapped := SwappedCopy(links, i, dir);
      links := Renumber(swapped);
    }

    /** The render's in-place `sort` by `order`. */
    method SortForRender()
      modifies this
      ensures links == StableSort(old(links), OrderKey)
    {
      links := StableSort(links, OrderKey);
    }
  }
}
