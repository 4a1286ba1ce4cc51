/** The BrandView brand dashboard: a match score per creator, the ranked candidate
    list behind a hard gate, and the shortlist mirrored into the shared session. */
module BrandDashboard {
  import opened Seqs
  import opened Session

  datatype Candidate = Candidate(
    id: string, name: string, niches: seq<string>,
    followers: int, engagement: int, rationale: string)

  /** The brand's current filter set. */
  datatype Filters = Filters(minFollowers: int, minEngagement: int, nichesDesired: seq<string>)

  /** `{ ...c, match: score(c) }` */
  datatype Scored = Scored(candidate: Candidate, matchScore: int)

  const SampleCandidates: seq<Candidate> := [
    Candidate("c1", "Alex Rivera", ["fitness", "wellness"], 12450, 62, "Strong consistency, wellness overlap"),
    Candidate("c2", "Mia Chen", ["beauty", "fashion"], 50320, 71, "High avg likes, fashion overlap"),
    Candidate("c3", "Sam Park", ["tech", "gaming"], 18200, 58, "Rising engagement; gaming overlap")
  ]

  const DefaultFilters: Filters := Filters(0, 0, [])

  /** How many of the candidate's niches are desired (counted with repetition). */
  function Overlapping(c: Candidate, f: Filters): (k: nat)
    ensures k <= |c.niches|
  {
    |Filter(c.niches, (n: string) => n in f.nichesDesired)|
  }

  /** No desired niche gives no overlap; a creator whose every niche is desired
      overlaps in all of them. */
  lemma OverlapExtremes(c: Candidate, f: Filters)
    ensures f.nichesDesired == [] ==> Overlapping(c, f) == 0
    ensures (forall n :: n in c.niches ==> n in f.nichesDesired) ==> Overlapping(c, f) == |c.niches|
  {
    var p := (n: string) => n in f.nichesDesired;
    if f.nichesDesired == [] {
      FilterNone(c.niches, p);
    }
    if forall n :: n in c.niches ==> p(n) {
      FilterAll(c.niches, p);
    }
  }

  /** `Math.round(x)` is `floor(x + 0.5)`. */
  function RoundHalfUp(x: real): int {
    (x + 0.5).Floor
  }

  /** The overlap ratio: 1 with no desired niches, else k / n. */
  function OverlapRatio(k: nat, n: nat): real {
    if n == 0 then 1.0 else k as real / n as real
  }

  /** `Math.round(0.6 * e + 40 * overlap)` in integer arithmetic. */
  function RoundedBase(e: int, k: nat, n: nat): int {
    if n == 0 then (6 * e + 405) / 10 else (6 * e * n + 400 * k + 5 * n) / (10 * n)
  }

  lemma MulLess(x: real, y: real, d: real)
    requires d > 0.0 && x < y
    ensures x * d < y * d
  {
  }

  lemma CastProduct(q: int, d: int)
    ensures (q * d) as real == q as real * d as real
  {
  }

  /** Real division of two integers floors to integer division. */
  lemma FloorOfQuotient(a: int, d: int)
    requires d > 0
    ensures (a as real / d as real).Floor == a / d
  {
    var q, r := a / d, a % d;
    var ar, dr, qr := a as real, d as real, q as real;
    var x := ar / dr;
    assert x * dr == ar;
    CastProduct(q, d);
    assert ar == qr * dr + r as real;
    if x < qr {
      MulLess(x, qr, dr);
      assert false;
    }
    if x >= qr + 1.0 {
      if x > qr + 1.0 {
        MulLess(qr + 1.0, x, dr);
      }
      assert false;
    }
  }

  /** The integer form agrees with `Math.round` of the exact rational value. */
  lemma RoundedBaseIsRound(e: int, k: nat, n: nat)
    ensures RoundedBase(e, k, n) == RoundHalfUp(0.6 * e as real + 40.0 * OverlapRatio(k, n))
  {
    if n == 0 {
      assert 0.6 * e as real + 40.0 * 1.0 + 0.5 == (6 * e + 405) as real / 10 as real;
      FloorOfQuotient(6 * e + 405, 10);
    } else {
      var a := 6 * e * n + 400 * k + 5 * n;
      var x := 0.6 * e as real + 40.0 * (k as real / n as real) + 0.5;
      assert x * (10 * n) as real == a as real by {
        assert (k as real / n as real) * n as real == k as real;
        calc {
          x * (10 * n) as real;
          == 6.0 * e as real * n as real + 400.0 * ((k as real / n as real) * n as real) + 5.0 * n as real;
          == 6.0 * e as real * n as real + 400.0 * k as real + 5.0 * n as real;
          == a as real;
        }
      }
      assert x == a as real / (10 * n) as real;
      FloorOfQuotient(a, 10 * n);
    }
  }

  function Clamp(s: int): (r: int)
    ensures 0 <= r <= 100
    ensures 0 <= s <= 100 ==> r == s
  {
    if s < 0 then 0 else if s > 100 then 100 else s
  }

  /** The score before the clamp: base minus an independent 25 per failed threshold. */
  function PreClamp(c: Candidate, f: Filters): int {
    RoundedBase(c.engagement, Overlapping(c, f), |f.nichesDesired|)
      - (if c.followers < f.minFollowers then 25 else 0)
      - (if c.engagement < f.minEngagement then 25 else 0)
  }

  /** `score(c)` */
  function Score(c: Candidate, f: Filters): (r: int)
    ensures 0 <= r <= 100
  {
    Clamp(PreClamp(c, f))
  }

  /** The two penalties are independent 25-point deductions from the rounded base. */
  lemma ScorePenalties(c: Candidate, f: Filters)
    ensures PreClamp(c, f) ==
      RoundHalfUp(0.6 * c.engagement as real + 40.0 * OverlapRatio(Overlapping(c, f), |f.nichesDesired|))
      - 25 * (if c.followers < f.minFollowers then 1 else 0)
      - 25 * (if c.engagement < f.minEngagement then 1 else 0)
    ensures c.followers < f.minFollowers && c.engagement < f.minEngagement ==>
      Score(c, f) == Clamp(RoundedBase(c.engagement, Overlapping(c, f), |f.nichesDesired|) - 50)
  {
    RoundedBaseIsRound(c.engagement, Overlapping(c, f), |f.nichesDesired|);
  }

  /** With no desired niches the niche term is a full 40 points. */
  lemma NoPreferenceScore(c: Candidate, f: Filters)
    requires f.nichesDesired == []
    requires c.followers >= f.minFollowers && c.engagement >= f.minEngagement
    ensures Score(c, f) == Clamp(RoundHalfUp(0.6 * c.engagement as real + 40.0))
    ensures 0 <= c.engagement <= 100 ==> 40 <= Score(c, f) == (6 * c.engagement + 405) / 10
  {
    RoundedBaseIsRound(c.engagement, Overlapping(c, f), 0);
  }

  // ---------------------------------------------------------------------------
  // The ranked list: map, hard gate, stable descending sort.

  predicate PassesGate(s: Scored, f: Filters) {
    s.candidate.followers >= f.minFollowers && s.candidate.engagement >= f.minEngagement
  }

  function ScoreAll(cs: seq<Candidate>, f: Filters): (r: seq<Scored>)
    ensures |r| == |cs|
    ensures forall i :: 0 <= i < |cs| ==> r[i] == Scored(cs[i], Score(cs[i], f))
  {
    if cs == [] then [] else [Scored(cs[0], Score(cs[0], f))] + ScoreAll(cs[1..], f)
  }

  function Gated(cs: seq<Candidate>, f: Filters): seq<Scored> {
    Filter(ScoreAll(cs, f), (s: Scored) => PassesGate(s, f))
  }

  /** Sort key of `(a, b) => b.matchScore - a.matchScore`. */
  function DescendingMatch(s: Scored): int { -s.matchScore }

  /** `candidates` */
  function Candidates(cs: seq<Candidate>, f: Filters): (r: seq<Scored>)
    ensures forall s :: s in r ==> s.candidate in cs && PassesGate(s, f) && s.matchScore == Score(s.candidate, f)
    ensures forall i, j :: 0 <= i < j < |r| ==> r[i].matchScore >= r[j].matchScore
    ensures multiset(r) == multiset(Gated(cs, f))
  {
    var r := StableSort(Gated(cs, f), DescendingMatch);
    SortedGated(cs, f, r);
    r
  }

  lemma SortedGated(cs: seq<Candidate>, f: Filters, r: seq<Scored>)
    requires r == StableSort(Gated(cs, f), DescendingMatch)
    ensures forall s :: s in r ==> s.candidate in cs && PassesGate(s, f) && s.matchScore == Score(s.candidate, f)
    ensures forall i, j :: 0 <= i < j < |r| ==> r[i].matchScore >= r[j].matchScore
  {
    var g := Gated(cs, f);
    forall s | s in r ensures s.candidate in cs && PassesGate(s, f) && s.matchScore == Score(s.candidate, f) {
      assert s in multiset(g);
      assert s in ScoreAll(cs, f);
    }
    forall i, j | 0 <= i < j < |r| ensures r[i].matchScore >= r[j].matchScore {
      assert DescendingMatch(r[i]) <= DescendingMatch(r[j]);
    }
  }

  /** Every gated creator is listed, and none twice more often than in the input. */
  lemma CandidatesComplete(cs: seq<Candidate>, f: Filters, c: Candidate)
    requires c in cs && c.followers >= f.minFollowers && c.engagement >= f.minEngagement
    ensures Scored(c, Score(c, f)) in Candidates(cs, f)
  {
    var i :| 0 <= i < |cs| && cs[i] == c;
    var sc := Scored(c, Score(c, f));
    var all := ScoreAll(cs, f);
    assert all[i] == sc;
    assert sc in all;
    assert PassesGate(sc, f);
    var g := Gated(cs, f);
    assert sc in g;
    assert sc in multiset(g);
    assert sc in multiset(Candidates(cs, f));
  }

  /** Equal matches keep their input order: the sort is stable. */
  lemma CandidatesStable(cs: seq<Candidate>, f: Filters)
    ensures SameKeyOrder(Candidates(cs, f), Gated(cs, f), DescendingMatch)
  {
    SortKeepsKeyOrder(Gated(cs, f), Candidates(cs, f), DescendingMatch);
  }

  /** The gate equals the penalty conditions, so a listed creator is never penalised. */
  lemma ListedAreUnpenalised(cs: seq<Candidate>, f: Filters, s: Scored)
    requires s in Candidates(cs, f)
    ensures s.matchScore == Clamp(RoundedBase(s.candidate.engagement, Overlapping(s.candidate, f), |f.nichesDesired|))
  {
  }

  /** With the default filters the sample ranks c2 = 83, c1 = 77, c3 = 75. */
  lemma SampleScores()
    ensures Score(SampleCandidates[0], DefaultFilters) == 77
    ensures Score(SampleCandidates[1], DefaultFilters) == 83
    ensures Score(SampleCandidates[2], DefaultFilters) == 75
  {
    assert Overlapping(SampleCandidates[0], DefaultFilters) == 0;
    assert Overlapping(SampleCandidates[1], DefaultFilters) == 0;
    assert Overlapping(SampleCandidates[2], DefaultFilters) == 0;
  }

  /** With the default filters the sample ranks c2 = 83, c1 = 77, c3 = 75. */
  lemma SampleRanking()
    ensures Candidates(SampleCandidates, DefaultFilters) == [
      Scored(SampleCandidates[1], 83), Scored(SampleCandidates[0], 77), Scored(SampleCandidates[2], 75)]
  {
    var c1, c2, c3 := SampleCandidates[0], SampleCandidates[1], SampleCandidates[2];
    SampleScores();
    assert SampleCandidates == [c1, c2, c3];
    RankThree(c1, c2, c3, DefaultFilters);
  }

  lemma RankThree(c1: Candidate, c2: Candidate, c3: Candidate, f: Filters)
    requires Score(c1, f) == 77 && Score(c2, f) == 83 && Score(c3, f) == 75
    requires f == DefaultFilters && c1.followers >= 0 && c2.followers >= 0 && c3.followers >= 0
    requires c1.engagement >= 0 && c2.engagement >= 0 && c3.engagement >= 0
    ensures Candidates([c1, c2, c3], f) == [Scored(c2, 83), Scored(c1, 77), Scored(c3, 75)]
  {
    var s1, s2, s3 := Scored(c1, 77), Scored(c2, 83), Scored(c3, 75);
    var g := [s1, s2, s3];
    var a := ScoreAll([c1, c2, c3], f);
    assert a[0] == s1 && a[1] == s2 && a[2] == s3;
    assert a == g;
    FilterAll(g, (s: Scored) => PassesGate(s, f));
    SortThree(s1, s2, s3);
  }

  lemma SortThree(s1: Scored, s2: Scored, s3: Scored)
    requires s1.matchScore == 77 && s2.matchScore == 83 && s3.matchScore == 75
    ensures StableSort([s1, s2, s3], DescendingMatch) == [s2, s1, s3]
  {
    var g := [s1, s2, s3];
    assert g[1..] == [s2, s3];
    assert [s2, s3][1..] == [s3];
    assert [s3][1..] == [];
    assert StableSort([s3], DescendingMatch) == [s3];
    assert Insert(s2, [s3], DescendingMatch) == [s2, s3];
    assert StableSort([s2, s3], DescendingMatch) == [s2, s3];
    assert [s2, s3][1..] == [s3];
    assert Insert(s1, [s3], DescendingMatch) == [s1, s3];
    assert Insert(s1, [s2, s3], DescendingMatch) == [s2, s1, s3];
  }

  // ---------------------------------------------------------------------------
  // The shortlist.

  predicate HasEntry(s: seq<ShortlistEntry>, id: string) {
    exists i :: 0 <= i < |s| && s[i].id == id
  }

  predicate UniqueIds(s: seq<ShortlistEntry>) {
    forall i, j :: 0 <= i < j < |s| ==> s[i].id != s[j].id
  }

  /** `addToShortlist`: keep the list when the id is present, else append a fresh entry. */
  function AddEntry(s: seq<ShortlistEntry>, id: string, now: int): (r: seq<ShortlistEntry>)
    ensures HasEntry(r, id)
    ensures |r| >= |s| && r[..|s|] == s
    ensures HasEntry(s, id) ==> r == s
    ensures !HasEntry(s, id) ==> |r| == |s| + 1 && r[|s|] == ShortlistEntry(id, "", now)
  {
    if HasEntry(s, id) then s
    else
      var r := s + [ShortlistEntry(id, "", now)];
      assert r[|s|].id == id;
      r
  }

  /** Accepting twice is accepting once: the second call keeps the first timestamp. */
  lemma AddEntryIdempotent(s: seq<ShortlistEntry>, id: string, t1: int, t2: int)
    ensures AddEntry(AddEntry(s, id, t1), id, t2) == AddEntry(s, id, t1)
  {
  }

  lemma AddEntryKeepsUnique(s: seq<ShortlistEntry>, id: string, now: int)
    requires UniqueIds(s)
    ensures UniqueIds(AddEntry(s, id, now))
  {
    var r := AddEntry(s, id, now);
    if !HasEntry(s, id) {
      forall i, j | 0 <= i < j < |r| ensures r[i].id != r[j].id {
        if j == |s| {
          assert r[i] == s[i];
        } else {
          assert r[i] == s[i] && r[j] == s[j];
        }
      }
    }
  }

  /** `removeFromShortlist` */
  function RemoveEntries(s: seq<ShortlistEntry>, id: string): (r: seq<ShortlistEntry>)
    ensures !HasEntry(r, id)
    ensures IsSubseq(r, s)
    ensures forall e :: e in s && e.id != id ==> e in r
    ensures forall e :: e in s ==> multiset(r)[e] == if e.id != id then multiset(s)[e] else 0
    ensures !HasEntry(s, id) ==> r == s
  {
    RemoveEntriesFacts(s, id);
    FilterCount(s, (e: ShortlistEntry) => e.id != id);
    Filter(s, (e: ShortlistEntry) => e.id != id)
  }

  lemma RemoveEntriesFacts(s: seq<ShortlistEntry>, id: string)
    ensures !HasEntry(Filter(s, (e: ShortlistEntry) => e.id != id), id)
    ensures IsSubseq(Filter(s, (e: ShortlistEntry) => e.id != id), s)
    ensures !HasEntry(s, id) ==> Filter(s, (e: ShortlistEntry) => e.id != id) == s
  {
    var r := Filter(s, (e: ShortlistEntry) => e.id != id);
    FilterIsSubseq(s, (e: ShortlistEntry) => e.id != id);
    if !HasEntry(s, id) {
      FilterAll(s, (e: ShortlistEntry) => e.id != id);
    }
    assert forall i :: 0 <= i < |r| ==> r[i] in r;
  }

  /** `updateNote`: only the matching entries change, and only in their note. */
  function UpdateNote(s: seq<ShortlistEntry>, id: string, note: string): (r: seq<ShortlistEntry>)
    ensures |r| == |s|
    ensures forall i :: 0 <= i < |s| && s[i].id != id ==> r[i] == s[i]
    ensures forall i :: 0 <= i < |s| && s[i].id == id ==> r[i] == ShortlistEntry(id, note, s[i].addedAt)
  {
    if s == [] then []
    else [if s[0].id == id then s[0].(note := note) else s[0]] + UpdateNote(s[1..], id, note)
  }

  lemma UpdateNoteAbsent(s: seq<ShortlistEntry>, id: string, note: string)
    requires !HasEntry(s, id)
    ensures UpdateNote(s, id, note) == s
  {
    var r := UpdateNote(s, id, note);
    assert forall i :: 0 <= i < |s| ==> r[i] == s[i];
  }

  // ---------------------------------------------------------------------------

  /** Screen state of the brand dashboard; the shortlist is mirrored into the shared
      session after every change. */
  class Dashboard {
    var filters: Filters
    var shortlist: seq<ShortlistEntry>
    const session: BrandViewSession

    /** Initial state `s?.shortlist || []`, then the mirroring effect runs once. */
    constructor (session: BrandViewSession)
      modifies session`shortlist
      ensures this.session == session
      ensures filters == DefaultFilters
      ensures shortlist == old(session.shortlist).GetOr([])
      ensures session.shortlist == Some(shortlist)
    {
      this.session := session;
      filters := DefaultFilters;
      shortlist := session.shortlist.GetOr([]);
      new;
      session.shortlist := Some(shortlist);
    }

    /** What the dashboard lists for its current filters. */
    function Ranked(): seq<Scored>
      reads this
    {
      Candidates(SampleCandidates, filters)
    }

    method SetMinFollowers(v: int)
      modifies this`filters
      ensures filters == old(filters).(minFollowers := v)
    {
      filters := filters.(minFollowers := v);
    }

    method SetMinEngagement(v: int)
      modifies this`filters
      ensures filters == old(filters).(minEngagement := v)
    {
      filters := filters.(minEngagement := v);
    }

    /** `toggleNiche` */
    method ToggleNiche(n: string)
      modifies this`filters
      ensures filters == old(filters).(nichesDesired := Toggle(old(filters.nichesDesired), n))
    {
      filters := filters.(nichesDesired := Toggle(filters.nichesDesired, n));
    }

    method AddToShortlist(id: string, now: int)
      modifies this`shortlist, session`shortlist
      ensures shortlist == AddEntry(old(shortlist), id, now)
      ensures session.shortlist == Some(shortlist)
    {
      shortlist := AddEntry(shortlist, id, now);
      session.shortlist := Some(shortlist);
    }

    method RemoveFromShortlist(id: string)
      modifies this`shortlist, session`shortlist
      ensures shortlist == RemoveEntries(old(shortlist), id)
      ensures session.shortlist == Some(shortlist)
    {
      shortlist := RemoveEntries(shortlist, id);
      session.shortlist := Some(shortlist);
    }

    method EditNote(id: string, note: string)
      modifies this`shortlist, session`shortlist
      ensures shortlist == UpdateNote(old(shortlist), id, note)
      ensures session.shortlist == Some(shortlist)
    {
      shortlist := UpdateNote(shortlist, id, note);
      session.shortlist := Some(shortlist);
    }
  }
}
