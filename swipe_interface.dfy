/** The swipe deck: a drag past the threshold likes or passes the current profile;
    both record its id and move to the next; Start Over rewinds the deck. */
module SwipeInterface {
  import opened Seqs

  datatype ProfileType = BrandProfile | InfluencerProfile

  /** Rating is kept in tenths. */
  datatype Profile = Profile(
    id: string, name: string, profileType: ProfileType, images: seq<string>, bio: string,
    location: string, followers: string, engagement: string, categories: seq<string>,
    rating: int, price: string, verified: bool)

  /** The three mock profiles of the deck. */
  const MockProfiles: seq<Profile> := [
    Profile("1", "Sarah Johnson", InfluencerProfile,
      ["https://images.unsplash.com/photo-1494790108755-2616b612b786?w=400"],
      "Fitness & wellness content creator. Helping people live healthier lives through sustainable habits and positive mindset.",
      "Los Angeles, CA", "125K", "8.5%", ["Fitness", "Wellness", "Lifestyle"], 48, "$2,500", true),
    Profile("2", "Nike Sportswear", BrandProfile,
      ["https://images.unsplash.com/photo-1542291026-7eec264c27ff?w=400"],
      "Global leader in athletic footwear and apparel. Empowering athletes worldwide with innovative performance gear.",
      "Beaverton, OR", "2.1M", "6.2%", ["Sports", "Athletics", "Fashion"], 49, "$15,000", true),
    Profile("3", "Mike Chen", InfluencerProfile,
      ["https://images.unsplash.com/photo-1507003211169-0a1dd7228f2d?w=400"],
      "Tech reviewer and gadget enthusiast. Sharing the latest in technology and helping you make informed decisions.",
      "San Francisco, CA", "89K", "7.1%", ["Technology", "Gadgets", "Reviews"], 46, "$1,800", true)
  ]

  const SwipeThreshold := 100

  datatype Swipe = Like | Pass | NoSwipe

  /** `handleDragEnd`: only a horizontal drag beyond the threshold counts. */
  function DragDecision(offsetX: int): (d: Swipe)
    ensures d == Like <==> offsetX > SwipeThreshold
    ensures d == Pass <==> offsetX < -SwipeThreshold
    ensures d == NoSwipe <==> -SwipeThreshold <= offsetX <= SwipeThreshold
  {
    if offsetX > SwipeThreshold then Like
    else if offsetX < -SwipeThreshold then Pass
    else NoSwipe
  }

  predicate IsProfileId(profiles: seq<Profile>, id: string) {
    exists k :: 0 <= k < |profiles| && profiles[k].id == id
  }

  class SwipeInterface {
    const profiles: seq<Profile>
    var currentIndex: int
    var swipedProfiles: seq<string>
    var selectedCategories: seq<string>

    /** The index stays within the deck and every recorded id is a profile's. */
    predicate Valid()
      reads this
    {
      0 <= currentIndex <= |profiles| &&
      forall i :: 0 <= i < |swipedProfiles| ==> IsProfileId(profiles, swipedProfiles[i])
    }

    constructor (deck: seq<Profile>)
      ensures Valid() && profiles == deck
      ensures currentIndex == 0 && swipedProfiles == [] && selectedCategories == []
    {
      profiles := deck;
      currentIndex := 0;
      swipedProfiles := [];
      selectedCategories := [];
    }

    /** `profiles[currentIndex]`, absent once the deck is exhausted. */
    function CurrentProfile(): (p: Option<Profile>)
      requires Valid()
      reads this
      ensures p.None? <==> currentIndex == |profiles|
      ensures p.Some? ==> p.value == profiles[currentIndex]
    {
      if currentIndex < |profiles| then Some(profiles[currentIndex]) else None
    }

    /** `handleLike` */
    method HandleLike()
      requires Valid()
      modifies this`currentIndex, this`swipedProfiles
      ensures Valid()
      ensures old(currentIndex) < |profiles| ==>
        swipedProfiles == old(swipedProfiles) + [profiles[old(currentIndex)].id] &&
        currentIndex == old(currentIndex) + 1
      ensures old(currentIndex) == |profiles| ==>
        swipedProfiles == old(swipedProfiles) && currentIndex == old(currentIndex)
    {
      if currentIndex < |profiles| {
        swipedProfiles := swipedProfiles + [profiles[currentIndex].id];
        currentIndex := currentIndex + 1;
      }
    }

    /** `handlePass`: the same state change as a like. */
    method HandlePass()
      requires Valid()
      modifies this`currentIndex, this`swipedProfiles
      ensures Valid()
      ensures old(currentIndex) < |profiles| ==>
        swipedProfiles == old(swipedProfiles) + [profiles[old(currentIndex)].id] &&
        currentIndex == old(currentIndex) + 1
      ensures old(currentIndex) == |profiles| ==>
        swipedProfiles == old(swipedProfiles) && currentIndex == old(currentIndex)
    {
      if currentIndex < |profiles| {
        swipedProfiles := swipedProfiles + [profiles[currentIndex].id];
        currentIndex := currentIndex + 1;
      }
    }

    /** `handleDragEnd` */
    method HandleDragEnd(offsetX: int)
      requires Valid()
      modifies this`currentIndex, this`swipedProfiles
      ensures Valid()
      ensures DragDecision(offsetX) == NoSwipe ==>
        currentIndex == old(currentIndex) && swipedProfiles == old(swipedProfiles)
      ensures DragDecision(offsetX) != NoSwipe && old(currentIndex) < |profiles| ==>
        swipedProfiles == old(swipedProfiles) + [profiles[old(currentIndex)].id] &&
        currentIndex == old(currentIndex) + 1
      ensures old(currentIndex) == |profiles| ==>
        currentIndex == old(currentIndex) && swipedProfiles == old(swipedProfiles)
    {
      var d := DragDecision(offsetX);
      if d == Like {
        HandleLike();
      } else if d == Pass {
        HandlePass();
      }
    }

    /** Start Over: back to the first profile; the swipe record is kept. */
    method StartOver()
      requires Valid()
      modifies this`currentIndex
      ensures Valid() && currentIndex == 0
    {
      currentIndex := 0;
    }

    /** A category chip of the filter panel. */
    method ToggleCategory(c: string)
      modifies this`selectedCategories
      ensures selectedCategories == Toggle(old(selectedCategories), c)
    {
      selectedCategories := Toggle(selectedCategories, c);
    }
  }

  /** Swiping through the whole mock deck records its ids in order. */
  method SwipeThrough() returns (recorded: seq<string>)
    ensures recorded == ["1", "2", "3"]
  {
    var deck := new SwipeInterface(MockProfiles);
    deck.HandleDragEnd(150);
    deck.HandleDragEnd(-150);
    deck.HandleDragEnd(40);
    deck.HandleLike();
    deck.HandlePass();
    recorded := deck.swipedProfiles;
  }
}
