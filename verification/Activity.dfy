/**
 * The merged activity feed: activity.service.ts. The order in which the database returns rows of
 * one instant is taken to be the order of the table.
 */
module Activity {
  import opened Options
  import opened Sorting

  const DEFAULT_LIMIT := 20
  const MAX_LIMIT := 50

  datatype Kind = BookingMade | WalletMoved | ReviewWritten | RewardGranted

  datatype Item = Item(kind: Kind, id: nat, at: int)

  // A customer's rows in the four tables, in no particular order.
  datatype Sources = Sources(bookings: seq<Item>, wallet: seq<Item>, reviews: seq<Item>, rewards: seq<Item>)

  datatype Page = Page(items: seq<Item>, nextCursor: Option<int>, hasMore: bool)

  function All(s: Sources): seq<Item> {
    s.bookings + s.wallet + s.reviews + s.rewards
  }

  // Newest first is youngest first.
  function Age(x: Item): int {
    0 - x.at
  }

  function InRange(before: Option<int>): Item -> bool {
    (x: Item) => before.None? || x.at < before.value
  }

  function NewestFirst(items: seq<Item>): seq<Item> {
    SortedBy(items, Age)
  }

  function Earlier(items: seq<Item>, before: Option<int>): seq<Item> {
    Kept(items, InRange(before))
  }

  // One table's query: rows before the cursor, newest first, at most limit of them.
  function Fetched(items: seq<Item>, before: Option<int>, limit: nat): seq<Item> {
    Top(NewestFirst(Earlier(items, before)), limit)
  }

  function Bounded(limit: int): (n: nat)
    ensures 1 <= n <= 50 && (limit < 1 ==> n == 1) && (limit > 50 ==> n == 50) && (1 <= limit <= 50 ==> n == limit)
  {
    if limit < 1 then 1 else if limit > MAX_LIMIT then MAX_LIMIT else limit
  }

  function Pool(s: Sources, before: Option<int>, n: nat): seq<Item> {
    Fetched(s.bookings, before, n) + Fetched(s.wallet, before, n) + Fetched(s.reviews, before, n) + Fetched(s.rewards, before, n)
  }

  predicate ASourceHitItsOwnCap(s: Sources, before: Option<int>, n: nat) {
    || |Fetched(s.bookings, before, n)| == n || |Fetched(s.wallet, before, n)| == n
    || |Fetched(s.reviews, before, n)| == n || |Fetched(s.rewards, before, n)| == n
  }

  function Cut(merged: seq<Item>, n: nat, capHit: bool): Page {
    var items := Top(merged, n);
    var hasMore := |merged| > |items| || capHit;
    Page(items, if hasMore && items != [] then Some(items[|items| - 1].at) else None, hasMore)
  }

  function ListMine(s: Sources, before: Option<int>, limit: int := DEFAULT_LIMIT): Page {
    var n := Bounded(limit);
    Cut(NewestFirst(Pool(s, before, n)), n, ASourceHitItsOwnCap(s, before, n))
  }

  // ----- one page

  // Everything before a cursor, newest first.
  function Feed(s: Sources, before: Option<int>): seq<Item> {
    NewestFirst(Earlier(All(s), before))
  }

  lemma SortOfFour(a: seq<Item>, b: seq<Item>, c: seq<Item>, d: seq<Item>)
    ensures NewestFirst(a + b + c + d) ==
              Merged(Merged(Merged(NewestFirst(a), NewestFirst(b), Age), NewestFirst(c), Age), NewestFirst(d), Age)
  {
    SortOfBoth(a, b, Age);
    SortOfBoth(a + b, c, Age);
    SortOfBoth(a + b + c, d, Age);
  }

  lemma EarlierOfAll(s: Sources, before: Option<int>)
    ensures Earlier(All(s), before) ==
              Earlier(s.bookings, before) + Earlier(s.wallet, before) + Earlier(s.reviews, before) + Earlier(s.rewards, before)
  {
    KeptOfBoth(s.bookings, s.wallet, InRange(before));
    KeptOfBoth(s.bookings + s.wallet, s.reviews, InRange(before));
    KeptOfBoth(s.bookings + s.wallet + s.reviews, s.rewards, InRange(before));
  }

  lemma SortedTop(sorted: seq<Item>, n: nat)
    requires Ordered(sorted, Age)
    ensures NewestFirst(Top(sorted, n)) == Top(sorted, n) == Top(Top(sorted, n), n)
    ensures |Top(sorted, n)| != n ==> Top(sorted, n) == sorted
  {
    SortedIsFixed(Top(sorted, n), Age);
  }

  // A table's fetch is sorted already and starts as the whole of its rows does.
  lemma FetchedIsSorted(items: seq<Item>, before: Option<int>, n: nat)
    ensures NewestFirst(Fetched(items, before, n)) == Fetched(items, before, n)
    ensures Top(Fetched(items, before, n), n) == Top(NewestFirst(Earlier(items, before)), n)
    ensures |Fetched(items, before, n)| != n ==> Fetched(items, before, n) == NewestFirst(Earlier(items, before))
  {
    SortedKeeps(Earlier(items, before), Age);
    SortedTop(NewestFirst(Earlier(items, before)), n);
  }

  // Merging the tops of the tables and cutting gives the top of the whole, ties and all.
  lemma MergedHead(s: Sources, before: Option<int>, n: nat)
    ensures Top(NewestFirst(Pool(s, before, n)), n) == Top(Feed(s, before), n)
  {
    var b, w := Fetched(s.bookings, before, n), Fetched(s.wallet, before, n);
    var v, r := Fetched(s.reviews, before, n), Fetched(s.rewards, before, n);
    FetchedIsSorted(s.bookings, before, n);
    FetchedIsSorted(s.wallet, before, n);
    FetchedIsSorted(s.reviews, before, n);
    FetchedIsSorted(s.rewards, before, n);
    EarlierOfAll(s, before);
    SortOfFour(b, w, v, r);
    SortOfFour(Earlier(s.bookings, before), Earlier(s.wallet, before), Earlier(s.reviews, before), Earlier(s.rewards, before));
    var B, W := NewestFirst(Earlier(s.bookings, before)), NewestFirst(Earlier(s.wallet, before));
    var V, R := NewestFirst(Earlier(s.reviews, before)), NewestFirst(Earlier(s.rewards, before));
    SameTopsMergeAlike(b, B, w, W, n, Age);
    SameTopsMergeAlike(Merged(b, w, Age), Merged(B, W, Age), v, V, n, Age);
    SameTopsMergeAlike(Merged(Merged(b, w, Age), v, Age), Merged(Merged(B, W, Age), V, Age), r, R, n, Age);
  }

  // When no table's query was cut short the merge is the whole feed.
  lemma UncappedPoolIsFeed(s: Sources, before: Option<int>, n: nat)
    requires !ASourceHitItsOwnCap(s, before, n)
    ensures NewestFirst(Pool(s, before, n)) == Feed(s, before)
  {
    FetchedIsSorted(s.bookings, before, n);
    FetchedIsSorted(s.wallet, before, n);
    FetchedIsSorted(s.reviews, before, n);
    FetchedIsSorted(s.rewards, before, n);
    EarlierOfAll(s, before);
    SortOfFour(Fetched(s.bookings, before, n), Fetched(s.wallet, before, n), Fetched(s.reviews, before, n), Fetched(s.rewards, before, n));
    SortOfFour(Earlier(s.bookings, before), Earlier(s.wallet, before), Earlier(s.reviews, before), Earlier(s.rewards, before));
  }

  // A page is the head of what is left; it says so if there may be more, and then hands out a cursor.
  predicate Heads(page: Page, left: seq<Item>, n: nat) {
    && page.items == Top(left, n)
    && (!page.hasMore ==> |left| <= n)
    && (page.nextCursor.Some? <==> page.hasMore && page.items != [])
    && (page.nextCursor.Some? ==> page.items != [] && page.nextCursor.value == page.items[|page.items| - 1].at)
  }

  lemma CutHeads(merged: seq<Item>, feed: seq<Item>, n: nat, capHit: bool)
    requires n > 0 && Top(merged, n) == Top(feed, n) && (!capHit ==> merged == feed)
    ensures Heads(Cut(merged, n, capHit), feed, n)
  {
    assert feed != [] ==> Top(feed, n)[0] == feed[0];
  }

  lemma PageIsHead(s: Sources, before: Option<int>, limit: int)
    ensures Heads(ListMine(s, before, limit), Feed(s, before), Bounded(limit))
  {
    var n := Bounded(limit);
    MergedHead(s, before, n);
    if !ASourceHitItsOwnCap(s, before, n) {
      UncappedPoolIsFeed(s, before, n);
    }
    CutHeads(NewestFirst(Pool(s, before, n)), Feed(s, before), n, ASourceHitItsOwnCap(s, before, n));
  }

  lemma FetchIsFull(items: seq<Item>, before: Option<int>, n: nat)
    ensures |Fetched(items, before, n)| == n <==> |Earlier(items, before)| >= n
  {
    SortedKeeps(Earlier(items, before), Age);
  }

  // More is promised exactly when more is left, or when one table alone could fill the page.
  lemma HasMoreIff(s: Sources, before: Option<int>, limit: int)
    ensures var n := Bounded(limit);
            ListMine(s, before, limit).hasMore <==>
              || |Earlier(All(s), before)| > n
              || |Earlier(s.bookings, before)| >= n || |Earlier(s.wallet, before)| >= n
              || |Earlier(s.reviews, before)| >= n || |Earlier(s.rewards, before)| >= n
  {
    var n := Bounded(limit);
    FetchIsFull(s.bookings, before, n);
    FetchIsFull(s.wallet, before, n);
    FetchIsFull(s.reviews, before, n);
    FetchIsFull(s.rewards, before, n);
    if !ASourceHitItsOwnCap(s, before, n) {
      UncappedPoolIsFeed(s, before, n);
      SortedKeeps(Earlier(All(s), before), Age);
    }
  }

  // ----- one turn of the page

  // What the cursor leaves of the rest: the rows strictly before it.
  function Rest(left: seq<Item>, n: nat): seq<Item>
    requires 0 < n <= |left|
  {
    Earlier(left[n..], Some(left[n - 1].at))
  }

  // How many rows after a page share the instant of its last.
  function Ties(s: seq<Item>, at: int): (k: nat)
    ensures k <= |s|
  {
    if s == [] || s[0].at != at then 0 else 1 + Ties(s[1..], at)
  }

  lemma {:induction false} EarlierDropsTies(s: seq<Item>, at: int)
    requires Ordered(s, Age) && forall i :: 0 <= i < |s| ==> s[i].at <= at
    ensures Earlier(s, Some(at)) == s[Ties(s, at)..]
    ensures forall i :: 0 <= i < Ties(s, at) ==> s[i].at == at
  {
    if s == [] {
    } else if s[0].at == at {
      EarlierDropsTies(s[1..], at);
    } else {
      assert forall i :: 0 <= i < |s| ==> Age(s[0]) <= Age(s[i]);
      AllKept(s, InRange(Some(at)));
    }
  }

  lemma FeedFalls(s: Sources, before: Option<int>)
    ensures Ordered(Feed(s, before), Age)
    ensures forall x :: x in Feed(s, before) <==> x in All(s) && InRange(before)(x)
    ensures multiset(Feed(s, before)) == multiset(Earlier(All(s), before))
  {
    SortedKeeps(Earlier(All(s), before), Age);
    KeptElements(All(s), InRange(before));
  }

  // A cursor filters the feed it was taken from.
  lemma NextFeedIsFiltered(s: Sources, before: Option<int>, at: int)
    requires InRange(before)(Item(BookingMade, 0, at))
    ensures Feed(s, Some(at)) == Earlier(Feed(s, before), Some(at))
  {
    KeptTwice(All(s), InRange(before), InRange(Some(at)));
    KeptOfSorted(Earlier(All(s), before), Age, InRange(Some(at)));
  }

  lemma FilterKeepsRest(feed: seq<Item>, k: nat)
    requires Ordered(feed, Age) && 0 < k <= |feed|
    ensures Earlier(feed, Some(feed[k - 1].at)) == Rest(feed, k)
  {
    var keep := InRange(Some(feed[k - 1].at));
    var head := feed[..k];
    assert feed == head + feed[k..];
    KeptOfBoth(head, feed[k..], keep);
    forall i | 0 <= i < k
      ensures !keep(head[i])
    {
      assert Age(feed[i]) <= Age(feed[k - 1]);
    }
    NoneKept(head, keep);
  }

  lemma NextFeedIsRest(s: Sources, before: Option<int>, k: nat)
    requires 0 < k <= |Feed(s, before)|
    ensures Feed(s, Some(Feed(s, before)[k - 1].at)) == Rest(Feed(s, before), k)
  {
    FeedFalls(s, before);
    assert Feed(s, before)[k - 1] in Feed(s, before);
    NextFeedIsFiltered(s, before, Feed(s, before)[k - 1].at);
    FilterKeepsRest(Feed(s, before), k);
  }

  // What a page leaves and what it loses: of the rows after it the first few share its last
  // instant, and the cursor leads to exactly those after them.
  lemma RestAfterTies(left: seq<Item>, k: nat)
    requires Ordered(left, Age) && 0 < k <= |left|
    ensures var lost := Ties(left[k..], left[k - 1].at);
            && k + lost <= |left| && Rest(left, k) == left[k + lost..]
            && (forall i :: k <= i < k + lost ==> left[i].at == left[k - 1].at)
            && forall i :: k + lost <= i < |left| ==> left[i].at < left[k - 1].at
  {
    var rest, at := left[k..], left[k - 1].at;
    assert forall i :: 0 <= i < |rest| ==> rest[i] == left[k + i];
    forall i | 0 <= i < |rest|
      ensures rest[i].at <= at
    {
      assert Age(left[k - 1]) <= Age(left[k + i]);
    }
    EarlierDropsTies(rest, at);
    KeptElements(rest, InRange(Some(at)));
    var lost := Ties(rest, at);
    forall i | k + lost <= i < |left|
      ensures left[i].at < at
    {
      assert rest[lost..][i - k - lost] == left[i];
      assert left[i] in Rest(left, k);
    }
  }

  // Of the feed, page is the head, next what its cursor leads to, and what lies between has the
  // cursor's instant and is shown by neither.
  predicate LosesOnlyTies(feed: seq<Item>, page: seq<Item>, at: int, next: seq<Item>) {
    && |page| <= |feed| && feed[..|page|] == page
    && var lost := Ties(feed[|page|..], at);
    && |page| + lost <= |feed| && next == feed[|page| + lost..]
    && (forall i :: |page| <= i < |page| + lost ==> feed[i].at == at)
    && (forall i :: |page| + lost <= i < |feed| ==> feed[i].at < at)
  }

  lemma CursorLosesOnlyTies(feed: seq<Item>, page: Page, n: nat)
    requires Ordered(feed, Age) && Heads(page, feed, n) && page.nextCursor.Some?
    ensures 0 < |page.items| <= |feed|
    ensures LosesOnlyTies(feed, page.items, page.nextCursor.value, Rest(feed, |page.items|))
  {
    RestAfterTies(feed, |page.items|);
  }

  // A turn of the page loses exactly the rows of the cursor's instant that are not on the page:
  // they come next in the feed, and what the cursor leads to is everything after them.
  lemma TurnLosesTies(s: Sources, before: Option<int>, limit: int)
    ensures var page := ListMine(s, before, limit);
            page.nextCursor.Some? ==>
              LosesOnlyTies(Feed(s, before), page.items, page.nextCursor.value, Feed(s, page.nextCursor))
  {
    PageIsHead(s, before, limit);
    FeedFalls(s, before);
    var page := ListMine(s, before, limit);
    if page.nextCursor.Some? {
      CursorLosesOnlyTies(Feed(s, before), page, Bounded(limit));
      NextFeedIsRest(s, before, |page.items|);
    }
  }

  // ----- following the cursor

  // A way of paging: each page heads what is left at its cursor, and its cursor leaves the rest.
  ghost predicate Pages(list: Option<int> -> Page, left: Option<int> -> seq<Item>, n: nat) {
    n > 0 && forall before: Option<int> ::
      && Heads(list(before), left(before), n)
      && (list(before).nextCursor.Some? ==>
            0 < |list(before).items| <= |left(before)|
            && left(list(before).nextCursor) == Rest(left(before), |list(before).items|))
  }

  // The pages a client gets by following nextCursor until there is none.
  ghost function Follow(list: Option<int> -> Page, left: Option<int> -> seq<Item>, n: nat, before: Option<int>): seq<Item>
    requires Pages(list, left, n)
    decreases |left(before)|
  {
    assert Heads(list(before), left(before), n);
    if list(before).nextCursor.None? then list(before).items
    else list(before).items + Follow(list, left, n, list(before).nextCursor)
  }

  // The same on the rows alone.
  function Paged(left: seq<Item>, n: nat): seq<Item>
    requires n > 0
    decreases |left|
  {
    if |left| <= n then left else left[..n] + Paged(Rest(left, n), n)
  }

  lemma {:induction false} FollowingPages(list: Option<int> -> Page, left: Option<int> -> seq<Item>, n: nat, before: Option<int>)
    requires Pages(list, left, n)
    ensures Follow(list, left, n, before) == Paged(left(before), n)
    decreases |left(before)|
  {
    assert Heads(list(before), left(before), n);
    var next := list(before).nextCursor;
    if next.None? {
    } else {
      FollowingPages(list, left, n, next);
      if |left(before)| <= n {
        assert left(next) == [];
        assert Paged([], n) == [];
      }
    }
  }

  lemma ListMinePages(s: Sources, limit: int)
    ensures Pages(before => ListMine(s, before, limit), before => Feed(s, before), Bounded(limit))
  {
    forall before: Option<int>
      ensures Heads(ListMine(s, before, limit), Feed(s, before), Bounded(limit))
      ensures ListMine(s, before, limit).nextCursor.Some? ==>
                && 0 < |ListMine(s, before, limit).items| <= |Feed(s, before)|
                && Feed(s, ListMine(s, before, limit).nextCursor) == Rest(Feed(s, before), |ListMine(s, before, limit).items|)
    {
      PageIsHead(s, before, limit);
      if ListMine(s, before, limit).nextCursor.Some? {
        NextFeedIsRest(s, before, |ListMine(s, before, limit).items|);
      }
    }
  }

  // ----- when nothing is lost

  // The last row of the k-th page and the first after it are of one instant.
  predicate Straddles(feed: seq<Item>, n: nat, k: nat) {
    0 < k && 0 < k * n < |feed| && feed[k * n - 1].at == feed[k * n].at
  }

  ghost predicate NoStraddle(feed: seq<Item>, n: nat) {
    forall k: nat :: !Straddles(feed, n, k)
  }

  lemma StraddlesShift(feed: seq<Item>, n: nat, k: nat)
    requires 0 < n < |feed| && k > 0
    ensures Straddles(feed[n..], n, k) <==> Straddles(feed, n, k + 1)
  {
    assert (k + 1) * n == k * n + n;
    ProductIsPositive(k, n);
  }

  lemma ProductIsPositive(k: nat, n: nat)
    requires k > 0 && n > 0
    ensures k * n >= n
  {
  }

  lemma ShortFeedsDoNotStraddle(feed: seq<Item>, n: nat)
    requires n > 0 && |feed| <= n
    ensures NoStraddle(feed, n)
  {
    forall k: nat
      ensures !Straddles(feed, n, k)
    {
      if k > 0 {
        ProductIsPositive(k, n);
      }
    }
  }

  lemma TailStraddles(feed: seq<Item>, n: nat)
    requires 0 < n < |feed| && feed[n - 1].at != feed[n].at
    ensures NoStraddle(feed, n) <==> NoStraddle(feed[n..], n)
  {
    forall k: nat
      ensures k > 0 ==> (Straddles(feed[n..], n, k) <==> Straddles(feed, n, k + 1))
    {
      if k > 0 {
        StraddlesShift(feed, n, k);
      }
    }
    assert 1 * n == n;
    assert !Straddles(feed, n, 1);
    if !NoStraddle(feed, n) {
      var k: nat :| Straddles(feed, n, k);
      assert Straddles(feed[n..], n, k - 1);
    }
    if !NoStraddle(feed[n..], n) {
      var k: nat :| Straddles(feed[n..], n, k);
      assert Straddles(feed, n, k + 1);
    }
  }

  // How much of the rest a cursor drops: nothing, or a run of ties.
  lemma RestIsSuffix(left: seq<Item>, n: nat) returns (lost: nat)
    requires Ordered(left, Age) && 0 < n < |left|
    ensures n + lost <= |left| && Rest(left, n) == left[n + lost..]
    ensures lost > 0 <==> left[n - 1].at == left[n].at
  {
    RestAfterTies(left, n);
    lost := Ties(left[n..], left[n - 1].at);
    assert left[n..][0] == left[n];
  }

  lemma SuffixIsOrdered(s: seq<Item>, k: nat)
    requires Ordered(s, Age) && k <= |s|
    ensures Ordered(s[k..], Age)
  {
  }

  lemma SuffixWithin(s: seq<Item>, n: nat, k: nat)
    requires n + k <= |s|
    ensures multiset(s[n + k..]) <= multiset(s[n..])
  {
    assert s[n..] == s[n..n + k] + s[n + k..];
  }

  // The first boundary decides for the first page, the others for the rest.
  lemma StraddleAtFirst(left: seq<Item>, n: nat)
    requires 0 < n < |left|
    ensures left[n - 1].at == left[n].at ==> !NoStraddle(left, n)
    ensures left[n - 1].at != left[n].at ==> (NoStraddle(left, n) <==> NoStraddle(left[n..], n))
  {
    if left[n - 1].at == left[n].at {
      assert 1 * n == n;
      assert Straddles(left, n, 1);
    } else {
      TailStraddles(left, n);
    }
  }

  lemma JoinedIsWithin(head: seq<Item>, tail: seq<Item>, part: seq<Item>)
    requires multiset(part) <= multiset(tail)
    ensures multiset(head + part) <= multiset(head + tail)
  {
  }

  lemma PageThenPartOfRest(left: seq<Item>, n: nat, lost: nat, part: seq<Item>)
    requires n + lost <= |left| && multiset(part) <= multiset(left[n + lost..])
    ensures multiset(left[..n] + part) <= multiset(left)
  {
    SuffixWithin(left, n, lost);
    JoinedIsWithin(left[..n], left[n..], part);
    assert left == left[..n] + left[n..];
  }

  lemma {:induction false} PagedRepeatsNothing(left: seq<Item>, n: nat)
    requires Ordered(left, Age) && n > 0
    ensures multiset(Paged(left, n)) <= multiset(left)
    decreases |left|
  {
    if |left| <= n {
    } else {
      var lost := RestIsSuffix(left, n);
      SuffixIsOrdered(left, n + lost);
      PagedRepeatsNothing(Rest(left, n), n);
      PageThenPartOfRest(left, n, lost, Paged(Rest(left, n), n));
    }
  }

  lemma {:induction false} PagedIsCompleteIff(left: seq<Item>, n: nat)
    requires Ordered(left, Age) && n > 0
    ensures |Paged(left, n)| <= |left| && (|Paged(left, n)| == |left| <==> NoStraddle(left, n))
    ensures NoStraddle(left, n) ==> Paged(left, n) == left
    decreases |left|
  {
    if |left| <= n {
      ShortFeedsDoNotStraddle(left, n);
    } else {
      var lost := RestIsSuffix(left, n);
      SuffixIsOrdered(left, n + lost);
      PagedIsCompleteIff(Rest(left, n), n);
      StraddleAtFirst(left, n);
      assert left == left[..n] + left[n..];
    }
  }

  lemma SubsetOfSameSize(a: multiset<Item>, b: multiset<Item>)
    requires a <= b && |a| == |b|
    ensures a == b
  {
    assert b == a + (b - a);
  }

  lemma {:induction false} EarlierIsAll(items: seq<Item>)
    ensures Earlier(items, None) == items
  {
    AllKept(items, InRange(None));
  }

  // Whatever the data and the limit, following the cursor repeats nothing, and yields every row
  // if and only if no two rows of one instant lie across a page boundary of the feed; then the
  // pages are the feed in order.
  lemma PagesAreCompleteIff(s: Sources, limit: int)
    ensures Pages(before => ListMine(s, before, limit), before => Feed(s, before), Bounded(limit))
    ensures var pages := Follow(before => ListMine(s, before, limit), before => Feed(s, before), Bounded(limit), None);
            && multiset(pages) <= multiset(All(s))
            && (multiset(pages) == multiset(All(s)) <==> NoStraddle(NewestFirst(All(s)), Bounded(limit)))
            && (NoStraddle(NewestFirst(All(s)), Bounded(limit)) ==> pages == NewestFirst(All(s)))
  {
    var n := Bounded(limit);
    ListMinePages(s, limit);
    FollowingPages(before => ListMine(s, before, limit), before => Feed(s, before), n, None);
    EarlierIsAll(All(s));
    var feed := NewestFirst(All(s));
    SortedKeeps(All(s), Age);
    PagedIsCompleteIff(feed, n);
    PagedRepeatsNothing(feed, n);
    var pages := Paged(feed, n);
    assert |multiset(pages)| == |pages| && |multiset(feed)| == |feed|;
    if |pages| == |feed| {
      SubsetOfSameSize(multiset(pages), multiset(feed));
    }
  }

  // ----- distinct times

  predicate DistinctTimes(items: seq<Item>) {
    forall x, y :: x in items && y in items && x != y ==> x.at != y.at
  }

  lemma TwiceIfEqual(s: seq<Item>, i: nat)
    requires 0 < i < |s|
    ensures s[i - 1] == s[i] ==> multiset(s)[s[i]] >= 2
  {
    assert s == s[..i] + s[i..];
    assert s[..i][i - 1] == s[i - 1] && s[i..][0] == s[i];
    assert s[i - 1] in multiset(s[..i]) && s[i] in multiset(s[i..]);
  }

  // Rows that all differ in time, each listed once, are all shown.
  lemma DistinctTimesDoNotStraddle(items: seq<Item>, n: nat)
    requires DistinctTimes(items) && forall x :: x in items ==> multiset(items)[x] == 1
    ensures NoStraddle(NewestFirst(items), n)
  {
    SortedKeeps(items, Age);
    var feed := NewestFirst(items);
    forall k: nat
      ensures !Straddles(feed, n, k)
    {
      if 0 < k && 0 < k * n < |feed| {
        TwiceIfEqual(feed, k * n);
        assert feed[k * n - 1] in feed && feed[k * n] in feed;
      }
    }
  }

  // Ties across a boundary do lose rows: of two rows of one instant a page of one shows the
  // first, and the cursor it hands out is past the second.
  lemma TiesAreSkipped()
    ensures var s := Sources([Item(BookingMade, 0, 5)], [Item(WalletMoved, 0, 5)], [], []);
            var first := ListMine(s, None, 1);
            && |first.items| == 1 && first.nextCursor == Some(5)
            && ListMine(s, first.nextCursor, 1) == Page([], None, false)
  {
    var b, w := Item(BookingMade, 0, 5), Item(WalletMoved, 0, 5);
    var s := Sources([b], [w], [], []);
    FetchOfOne(b, None);
    FetchOfOne(w, None);
    assert Pool(s, None, 1) == [b, w];
    assert [b, w][1..] == [w];
    assert NewestFirst([b, w]) == InsertedBy(NewestFirst([w]), b, Age) == [b, w];
    FetchOfOne(b, Some(5));
    FetchOfOne(w, Some(5));
    assert Pool(s, Some(5), 1) == [];
  }

  lemma FetchOfOne(x: Item, before: Option<int>)
    ensures NewestFirst([x]) == [x]
    ensures Fetched([x], before, 1) == if InRange(before)(x) then [x] else []
  {
    assert [x][1..] == [];
    assert SortedBy([x][1..], Age) == [];
    assert Earlier([x], before) == if InRange(before)(x) then [x] else [];
  }
}
