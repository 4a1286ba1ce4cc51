/** The matches screen: the list narrowed by the filter select, the selected match
    looked up by id, and the message box cleared on a non-blank send. */
module Matches {
  import opened Seqs
  import opened Strings

  datatype UserType = Brand | Influencer

  datatype MatchProfile = MatchProfile(
    followers: string, engagement: string, location: string, categories: seq<string>,
    verified: bool, lastActive: string)

  /** `timestamp` is in milliseconds since the epoch. */
  datatype Match = Match(
    id: string, userId: string, matchedUserId: string, matchedUserName: string,
    matchedUserType: UserType, matchedUserImage: string, score: int, timestamp: int,
    profile: MatchProfile)

  const Day := 24 * 60 * 60 * 1000

  /** Midnight UTC of 13, 14 and 15 January 2024. */
  const Jan13: int := 1705104000000
  const Jan14: int := Jan13 + Day
  const Jan15: int := Jan14 + Day

  const MockMatches: seq<Match> := [
    Match("1", "1", "2", "Sarah Johnson", Influencer, "https://images.unsplash.com/photo-1494790108755-2616b612b786?w=100", 95, Jan15,
      MatchProfile("125K", "8.5%", "Los Angeles, CA", ["Fitness", "Wellness"], true, "2 hours ago")),
    Match("2", "1", "3", "Mike Chen", Influencer, "https://images.unsplash.com/photo-1507003211169-0a1dd7228f2d?w=100", 87, Jan14,
      MatchProfile("89K", "7.1%", "San Francisco, CA", ["Technology", "Gadgets"], true, "1 day ago")),
    Match("3", "1", "4", "Nike Sportswear", Brand, "https://images.unsplash.com/photo-1542291026-7eec264c27ff?w=100", 92, Jan13,
      MatchProfile("2.1M", "6.2%", "Beaverton, OR", ["Sports", "Athletics"], true, "3 hours ago"))
  ]

  /** The filter callback: 'recent' and 'high-score' narrow, every other value keeps
      all. */
  predicate Kept(filter: string, m: Match, now: int) {
    if filter == "all" then true
    else if filter == "recent" then m.timestamp > now - 7 * Day
    else if filter == "high-score" then m.score >= 90
    else true
  }

  function KeptBy(filter: string, now: int): Match -> bool {
    m => Kept(filter, m, now)
  }

  /** `filteredMatches` */
  function FilteredMatches(ms: seq<Match>, filter: string, now: int): (r: seq<Match>)
    ensures IsSubseq(r, ms)
    ensures forall m :: m in r <==> m in ms && Kept(filter, m, now)
    ensures forall m :: m in ms ==> multiset(r)[m] == if Kept(filter, m, now) then multiset(ms)[m] else 0
  {
    FilterIsSubseq(ms, KeptBy(filter, now));
    FilterCount(ms, KeptBy(filter, now));
    Filter(ms, KeptBy(filter, now))
  }

  /** 'all' and any value the select does not offer show every match, in order. */
  lemma AllOrUnknownKeepsEverything(ms: seq<Match>, filter: string, now: int)
    requires filter != "recent" && filter != "high-score"
    ensures FilteredMatches(ms, filter, now) == ms
  {
    FilterAll(ms, KeptBy(filter, now));
  }

  lemma HighScoreExact(ms: seq<Match>, now: int)
    ensures forall m :: m in FilteredMatches(ms, "high-score", now) <==> m in ms && m.score >= 90
  {
  }

  lemma RecentExact(ms: seq<Match>, now: int)
    ensures forall m :: m in FilteredMatches(ms, "recent", now) <==> m in ms && m.timestamp > now - 7 * Day
  {
  }

  /** On the mock list, 'high-score' drops only Mike Chen (87). */
  lemma MockHighScore(now: int)
    ensures FilteredMatches(MockMatches, "high-score", now) == [MockMatches[0], MockMatches[2]]
  {
    var p := KeptBy("high-score", now);
    var ms := MockMatches;
    assert ms[1..][1..][1..] == [];
    assert Filter(ms[1..][1..], p) == [ms[2]];
    assert Filter(ms[1..], p) == [ms[2]];
  }

  /** A week after the newest mock match, 'recent' shows nothing. */
  lemma MockRecentAfterAWeek(now: int)
    requires now >= Jan15 + 7 * Day
    ensures FilteredMatches(MockMatches, "recent", now) == []
  {
    FilterNone(MockMatches, KeptBy("recent", now));
  }

  function IdIs(id: string): Match -> bool {
    (m: Match) => m.id == id
  }

  /** `matches.find(m => m.id === selectedMatch)` */
  function FindMatch(ms: seq<Match>, id: string): (r: Option<Match>)
    ensures r.Some? ==> r.value in ms && r.value.id == id
    ensures r.Some? ==>
      exists i :: 0 <= i < |ms| && ms[i] == r.value && forall j :: 0 <= j < i ==> ms[j].id != id
    ensures r.None? <==> forall k :: 0 <= k < |ms| ==> ms[k].id != id
  {
    var i := FirstIndex(ms, IdIs(id));
    if i < 0 then None else Some(ms[i])
  }

  class Matches {
    const matches: seq<Match>
    var selectedMatch: Option<string>
    var message: string
    var filter: string

    constructor (ms: seq<Match>)
      ensures matches == ms && selectedMatch == None && message == "" && filter == "all"
    {
      matches := ms;
      selectedMatch := None;
      message := "";
      filter := "all";
    }

    function Shown(now: int): seq<Match>
      reads this
    {
      FilteredMatches(matches, filter, now)
    }

    /** `selectedMatchData` */
    function SelectedMatchData(): (r: Option<Match>)
      reads this
      ensures selectedMatch.None? ==> r.None?
      ensures r.Some? ==> r.value in matches && Some(r.value.id) == selectedMatch
      ensures selectedMatch.Some? ==>
        (r.None? <==> forall k :: 0 <= k < |matches| ==> matches[k].id != selectedMatch.value)
      ensures selectedMatch.Some? ==> r == FindMatch(matches, selectedMatch.value)
    {
      if selectedMatch.None? then None else FindMatch(matches, selectedMatch.value)
    }

    method SelectMatch(id: string)
      modifies this`selectedMatch
      ensures selectedMatch == Some(id)
    {
      selectedMatch := Some(id);
    }

    /** `sendMessage`: a non-blank message is handed on and the box cleared; a blank
        one changes nothing.  `sent` is what the source logs. */
    method SendMessage() returns (sent: Option<string>)
      modifies this`message
      ensures Trim(old(message)) != "" ==> message == "" && sent == Some(old(message))
      ensures Trim(old(message)) == "" ==> message == old(message) && sent == None
    {
      if Trim(message) != "" {
        sent := Some(message);
        message := "";
      } else {
        sent := None;
      }
    }
  }
}
