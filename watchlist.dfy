/**
 * The watchlist view: every watched symbol is put into one category by the
 * status of its cached strategy advice, and inside each category pinned
 * symbols are moved to the front.
 */
module Watchlist {
  import opened Basics
  import opened Text
  import opened Sorting
  import Strategy

  /** The categories, in the order of the category table. */
  datatype Category =
    | GiftBuyGroup | BullishConfirmedGroup | BearishConfirmedGroup | WatchBreakoutGroup
    | WatchBreakdownGroup | BullishTrendGroup | BearishTrendGroup | Others

  const AllCategories: seq<Category> := [
    GiftBuyGroup, BullishConfirmedGroup, BearishConfirmedGroup, WatchBreakoutGroup,
    WatchBreakdownGroup, BullishTrendGroup, BearishTrendGroup, Others]

  /** The key of each category in the category table. */
  function Key(c: Category): string {
    match c
    case GiftBuyGroup => "GIFT_BUY"
    case BullishConfirmedGroup => "BULLISH_CONFIRMED"
    case BearishConfirmedGroup => "BEARISH_CONFIRMED"
    case WatchBreakoutGroup => "WATCH_BREAKOUT"
    case WatchBreakdownGroup => "WATCH_BREAKDOWN"
    case BullishTrendGroup => "BULLISH_TREND"
    case BearishTrendGroup => "BEARISH_TREND"
    case Others => "OTHERS"
  }

  /** The position of `c` in the category table. */
  function CategoryIndex(c: Category): (i: nat)
    ensures i < |AllCategories| && AllCategories[i] == c
  {
    match c
    case GiftBuyGroup => 0
    case BullishConfirmedGroup => 1
    case BearishConfirmedGroup => 2
    case WatchBreakoutGroup => 3
    case WatchBreakdownGroup => 4
    case BullishTrendGroup => 5
    case BearishTrendGroup => 6
    case Others => 7
  }

  lemma CategoryIndexOfListed(k: nat)
    requires k < |AllCategories|
    ensures CategoryIndex(AllCategories[k]) == k
  {
  }

  lemma AllCategoriesListsEachOnce(c: Category)
    ensures c in AllCategories
    ensures forall i, j :: 0 <= i < j < |AllCategories| ==> AllCategories[i] != AllCategories[j]
  {
  }

  /** The category whose key is `status`, if any. */
  function ExactCategory(status: string): (r: Option<Category>)
    ensures forall c :: Key(c) == status ==> r == Some(c)
    ensures r.Some? ==> Key(r.value) == status
  {
    if status == "GIFT_BUY" then Some(GiftBuyGroup)
    else if status == "BULLISH_CONFIRMED" then Some(BullishConfirmedGroup)
    else if status == "BEARISH_CONFIRMED" then Some(BearishConfirmedGroup)
    else if status == "WATCH_BREAKOUT" then Some(WatchBreakoutGroup)
    else if status == "WATCH_BREAKDOWN" then Some(WatchBreakdownGroup)
    else if status == "BULLISH_TREND" then Some(BullishTrendGroup)
    else if status == "BEARISH_TREND" then Some(BearishTrendGroup)
    else if status == "OTHERS" then Some(Others)
    else None
  }

  /** The first of the substring tests that matches, in the listed order. */
  function FuzzyCategory(status: string): Category {
    if Contains(status, "GIFT") then GiftBuyGroup
    else if Contains(status, "BULLISH_CONFIRMED") then BullishConfirmedGroup
    else if Contains(status, "BEARISH_CONFIRMED") then BearishConfirmedGroup
    else if Contains(status, "WATCH_BREAKOUT") then WatchBreakoutGroup
    else if Contains(status, "WATCH_BREAKDOWN") then WatchBreakdownGroup
    else if Contains(status, "BULLISH_TREND") then BullishTrendGroup
    else if Contains(status, "BEARISH_TREND") then BearishTrendGroup
    else Others
  }

  /**
   * The category of a watched symbol; `cache` maps a symbol to the status of
   * its cached advice ("" when the advice carries none).
   */
  function Classify(symbol: string, cache: map<string, string>): Category {
    if symbol !in cache then Others
    else
      var status := cache[symbol];
      match ExactCategory(status)
      case Some(c) => c
      case None => FuzzyCategory(status)
  }

  /** The symbols of `watchlist` in category `c`, in watchlist order. */
  function Group(watchlist: seq<string>, cache: map<string, string>, c: Category): (g: seq<string>)
    ensures |g| <= |watchlist|
  {
    if watchlist == [] then []
    else
      var x := watchlist[|watchlist| - 1];
      Group(watchlist[..|watchlist| - 1], cache, c) + (if Classify(x, cache) == c then [x] else [])
  }

  function PinKey(pinned: seq<string>): string -> int {
    s => if s in pinned then 0 else 1
  }

  /** The in-place sort that puts pinned symbols first (Array.prototype.sort is stable). */
  function PinnedFirst(g: seq<string>, pinned: seq<string>): seq<string> {
    SortByKey(g, PinKey(pinned))
  }

  /** `groupedWatchlist`: fill every category, then sort each one pinned-first. */
  method GroupWatchlist(watchlist: seq<string>, cache: map<string, string>, pinned: seq<string>)
    returns (groups: map<Category, seq<string>>)
    ensures forall c: Category :: c in groups && groups[c] == PinnedFirst(Group(watchlist, cache, c), pinned)
  {
    var filled := FillGroups(watchlist, cache);
    groups := SortEachGroup(filled, pinned);
  }

  /** The second pass: every category's array is sorted pinned-first. */
  method SortEachGroup(filled: map<Category, seq<string>>, pinned: seq<string>) returns (groups: map<Category, seq<string>>)
    requires forall c: Category :: c in filled
    ensures forall c: Category :: c in groups && groups[c] == PinnedFirst(filled[c], pinned)
  {
    groups := filled;
    for k := 0 to |AllCategories|
      invariant forall c: Category :: c in groups
      invariant forall c: Category :: CategoryIndex(c) < k ==> groups[c] == PinnedFirst(filled[c], pinned)
      invariant forall c: Category :: k <= CategoryIndex(c) ==> groups[c] == filled[c]
    {
      var c := AllCategories[k];
      CategoryIndexOfListed(k);
      groups := groups[c := PinnedFirst(groups[c], pinned)];
    }
  }

  /** Every category starts empty; each symbol is pushed onto the group it is classified into. */
  method FillGroups(watchlist: seq<string>, cache: map<string, string>) returns (groups: map<Category, seq<string>>)
    ensures forall c: Category :: c in groups && groups[c] == Group(watchlist, cache, c)
  {
    groups := map c: Category | c in AllCategories :: [];
    forall c: Category ensures c in groups {
      AllCategoriesListsEachOnce(c);
    }
    for i := 0 to |watchlist|
      invariant forall c: Category :: c in groups && groups[c] == Group(watchlist[..i], cache, c)
    {
      assert watchlist[..i + 1][..i] == watchlist[..i];
      var symbol := watchlist[i];
      var c := Classify(symbol, cache);
      groups := groups[c := groups[c] + [symbol]];
    }
    assert watchlist[..|watchlist|] == watchlist;
  }

  // ---------------------------------------------------------------------
  // Properties of the grouping
  // ---------------------------------------------------------------------

  /** The number of symbols over the categories `cats`. */
  function GroupSizes(watchlist: seq<string>, cache: map<string, string>, cats: seq<Category>): nat {
    if cats == [] then 0
    else GroupSizes(watchlist, cache, cats[..|cats| - 1]) + |Group(watchlist, cache, cats[|cats| - 1])|
  }

  lemma {:induction false} GroupSizesStep(watchlist: seq<string>, x: string, cache: map<string, string>,
                                          cats: seq<Category>)
    requires forall i, j :: 0 <= i < j < |cats| ==> cats[i] != cats[j]
    ensures GroupSizes(watchlist + [x], cache, cats)
            == GroupSizes(watchlist, cache, cats) + (if Classify(x, cache) in cats then 1 else 0)
  {
    assert (watchlist + [x])[..|watchlist|] == watchlist;
    if cats != [] {
      var init := cats[..|cats| - 1];
      assert cats == init + [cats[|cats| - 1]];
      GroupSizesStep(watchlist, x, cache, init);
    }
  }

  /** Every watched symbol lands in exactly one category. */
  lemma {:induction false} GroupsPartitionWatchlist(watchlist: seq<string>, cache: map<string, string>)
    ensures GroupSizes(watchlist, cache, AllCategories) == |watchlist|
  {
    if watchlist != [] {
      var init, x := watchlist[..|watchlist| - 1], watchlist[|watchlist| - 1];
      assert watchlist == init + [x];
      GroupsPartitionWatchlist(init, cache);
      AllCategoriesListsEachOnce(Classify(x, cache));
      GroupSizesStep(init, x, cache, AllCategories);
    } else {
      NoGroupsOfEmpty(cache, AllCategories);
    }
  }

  lemma {:induction false} NoGroupsOfEmpty(cache: map<string, string>, cats: seq<Category>)
    ensures GroupSizes([], cache, cats) == 0
  {
    if cats != [] {
      NoGroupsOfEmpty(cache, cats[..|cats| - 1]);
    }
  }

  /** A symbol is in the category it is classified into, and in no other. */
  lemma {:induction false} GroupMembership(watchlist: seq<string>, cache: map<string, string>, c: Category, x: string)
    ensures x in Group(watchlist, cache, c) <==> x in watchlist && Classify(x, cache) == c
  {
    if watchlist != [] {
      var init := watchlist[..|watchlist| - 1];
      GroupMembership(init, cache, c, x);
      assert watchlist == init + [watchlist[|watchlist| - 1]];
    }
  }

  /** The symbols of `g` that are (or are not) pinned, in order. */
  function PinnedPart(g: seq<string>, pinned: seq<string>, want: bool): (r: seq<string>)
    ensures forall i :: 0 <= i < |r| ==> (r[i] in pinned) == want
  {
    if g == [] then []
    else PinnedPart(g[..|g| - 1], pinned, want) + (if (g[|g| - 1] in pinned) == want then [g[|g| - 1]] else [])
  }

  lemma {:induction false} PinnedPartIsWithKey(g: seq<string>, pinned: seq<string>, want: bool)
    ensures PinnedPart(g, pinned, want) == WithKey(g, PinKey(pinned), if want then 0 else 1)
  {
    if g != [] {
      PinnedPartIsWithKey(g[..|g| - 1], pinned, want);
    }
  }

  /** A sequence sorted by a key with values 0 and 1 is its 0-part followed by its 1-part. */
  lemma {:induction false} SortedSplits(s: seq<string>, pinned: seq<string>)
    requires SortedBy(s, PinKey(pinned))
    ensures s == WithKey(s, PinKey(pinned), 0) + WithKey(s, PinKey(pinned), 1)
  {
    var key := PinKey(pinned);
    if s != [] {
      var init, x := s[..|s| - 1], s[|s| - 1];
      assert SortedBy(init, key);
      SortedSplits(init, pinned);
      if key(x) == 0 {
        forall i | 0 <= i < |init| ensures key(init[i]) == 0 {
          assert key(s[i]) <= key(s[|s| - 1]);
        }
        AllOneKey(init, pinned);
        assert WithKey(init, key, 1) == [];
      }
    }
  }

  lemma {:induction false} AllOneKey(s: seq<string>, pinned: seq<string>)
    requires forall i :: 0 <= i < |s| ==> PinKey(pinned)(s[i]) == 0
    ensures WithKey(s, PinKey(pinned), 1) == []
  {
    if s != [] {
      AllOneKey(s[..|s| - 1], pinned);
    }
  }

  /**
   * Inside a category the pinned symbols come first and the unpinned ones
   * after them, each part in its previous order, and nothing is lost or
   * added.
   */
  lemma PinnedFirstPartition(g: seq<string>, pinned: seq<string>)
    ensures PinnedFirst(g, pinned) == PinnedPart(g, pinned, true) + PinnedPart(g, pinned, false)
    ensures multiset(PinnedFirst(g, pinned)) == multiset(g)
  {
    var key := PinKey(pinned);
    var r := SortByKey(g, key);
    SortByKeySortsAndPermutes(g, key);
    SortedSplits(r, pinned);
    SortByKeyIsStable(g, key, 0);
    SortByKeyIsStable(g, key, 1);
    PinnedPartIsWithKey(g, pinned, true);
    PinnedPartIsWithKey(g, pinned, false);
  }

  // ---------------------------------------------------------------------
  // Classification of the advisor's statuses
  // ---------------------------------------------------------------------

  /** The status string the strategy advisor reports. */
  function StatusName(s: Strategy.AdviceStatus): string {
    match s
    case Waiting => "WAITING"
    case GiftBuy => "GIFT_BUY"
    case WatchBreakout => "WATCH_BREAKOUT"
    case WatchBreakdown => "WATCH_BREAKDOWN"
    case BullishConfirmed => "BULLISH_CONFIRMED"
    case BearishConfirmed => "BEARISH_CONFIRMED"
    case Consolidating => "CONSOLIDATING"
    case BullishTrend => "BULLISH_TREND"
    case BearishTrend => "BEARISH_TREND"
  }

  /** The category a strategy status is shown in. */
  function CategoryOf(s: Strategy.AdviceStatus): Category {
    match s
    case GiftBuy => GiftBuyGroup
    case WatchBreakout => WatchBreakoutGroup
    case WatchBreakdown => WatchBreakdownGroup
    case BullishConfirmed => BullishConfirmedGroup
    case BearishConfirmed => BearishConfirmedGroup
    case BullishTrend => BullishTrendGroup
    case BearishTrend => BearishTrendGroup
    case Waiting => Others
    case Consolidating => Others
  }

  /**
   * Every status the advisor reports lands in its own category; the two
   * without one, CONSOLIDATING and WAITING, land in OTHERS.
   */
  lemma AdviceStatusCategory(symbol: string, cache: map<string, string>, s: Strategy.AdviceStatus)
    requires symbol in cache && cache[symbol] == StatusName(s)
    ensures Classify(symbol, cache) == CategoryOf(s)
  {
    var status := StatusName(s);
    if s == Strategy.Consolidating || s == Strategy.Waiting {
      assert ExactCategory(status).None?;
      assert 'F' !in status && 'B' !in status;
      if Contains(status, "GIFT") { ContainsKeepsChars(status, "GIFT", 'F'); }
      if Contains(status, "BULLISH_CONFIRMED") { ContainsKeepsChars(status, "BULLISH_CONFIRMED", 'B'); }
      if Contains(status, "BEARISH_CONFIRMED") { ContainsKeepsChars(status, "BEARISH_CONFIRMED", 'B'); }
      if Contains(status, "WATCH_BREAKOUT") { ContainsKeepsChars(status, "WATCH_BREAKOUT", 'B'); }
      if Contains(status, "WATCH_BREAKDOWN") { ContainsKeepsChars(status, "WATCH_BREAKDOWN", 'B'); }
      if Contains(status, "BULLISH_TREND") { ContainsKeepsChars(status, "BULLISH_TREND", 'B'); }
      if Contains(status, "BEARISH_TREND") { ContainsKeepsChars(status, "BEARISH_TREND", 'B'); }
    }
  }

  /** A symbol without cached advice is shown under OTHERS. */
  lemma UncachedGoesToOthers(watchlist: seq<string>, cache: map<string, string>, x: string)
    requires x in watchlist && x !in cache
    ensures x in Group(watchlist, cache, Others)
    ensures forall c :: c != Others ==> x !in Group(watchlist, cache, c)
  {
    GroupMembership(watchlist, cache, Others, x);
    forall c | c != Others ensures x !in Group(watchlist, cache, c) {
      GroupMembership(watchlist, cache, c, x);
    }
  }

  /** A status that merely mentions GIFT, whatever else it says, is shown as a gift. */
  lemma GiftWinsFuzzyMatch(symbol: string, cache: map<string, string>)
    requires symbol in cache && ExactCategory(cache[symbol]).None? && Contains(cache[symbol], "GIFT")
    ensures Classify(symbol, cache) == GiftBuyGroup
  {
  }
}
