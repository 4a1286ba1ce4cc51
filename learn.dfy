/** The Learn screen: the seed curriculum narrowed by level and type. */
module Learn {
  import opened Seqs

  datatype Level = Beginner | Intermediate | Advanced
  datatype ModuleType = Video | Article | Checklist

  /** `Module`; the optional `url` is not set on any seed entry. */
  datatype LearnModule = LearnModule(
    id: string, title: string, level: Level, moduleType: ModuleType, duration: string,
    url: Option<string>)

  const Seed: seq<LearnModule> := [
    LearnModule("m1", "Crafting high-retention short-form intros", Beginner, Video, "7 min", None),
    LearnModule("m2", "Writing CTAs that convert", Intermediate, Article, "6 min", None),
    LearnModule("m3", "Content calendar: cadence and themes", Beginner, Checklist, "5 min", None)
  ]

  /** A select value; `None` is 'all'. */
  predicate Matches(m: LearnModule, level: Option<Level>, t: Option<ModuleType>) {
    (level.None? || m.level == level.value) && (t.None? || m.moduleType == t.value)
  }

  function MatchesBoth(level: Option<Level>, t: Option<ModuleType>): LearnModule -> bool {
    m => Matches(m, level, t)
  }

  /** `modules` */
  function Modules(ms: seq<LearnModule>, level: Option<Level>, t: Option<ModuleType>): (r: seq<LearnModule>)
    ensures IsSubseq(r, ms)
    ensures forall m :: m in r <==> m in ms && Matches(m, level, t)
    ensures forall m :: m in ms ==> multiset(r)[m] == if Matches(m, level, t) then multiset(ms)[m] else 0
  {
    FilterIsSubseq(ms, MatchesBoth(level, t));
    FilterCount(ms, MatchesBoth(level, t));
    Filter(ms, MatchesBoth(level, t))
  }

  lemma AllShowsEverything(ms: seq<LearnModule>)
    ensures Modules(ms, None, None) == ms
  {
    FilterAll(ms, MatchesBoth(None, None));
  }

  lemma NoAdvancedSeed(t: Option<ModuleType>)
    ensures Modules(Seed, Some(Advanced), t) == []
  {
    FilterNone(Seed, MatchesBoth(Some(Advanced), t));
  }

  /** The two beginner modules, in seed order. */
  lemma BeginnerSeed()
    ensures Modules(Seed, Some(Beginner), None) == [Seed[0], Seed[2]]
  {
    var p := MatchesBoth(Some(Beginner), None);
    assert Seed[1..][1..][1..] == [];
    assert Filter(Seed[1..][1..], p) == [Seed[2]];
    assert Filter(Seed[1..], p) == [Seed[2]];
  }
}
