/** Announcements shown above the checklist: the scrolling ticker, the
    dismissible banners, the message language, and the list of dismissed
    banners. Loading from the database and browser storage are left to the
    caller. */
module Announcements {
  import opened Common

  datatype Announcement = Announcement(id: string, displayMode: string, messageDe: string, messageEn: string)

  predicate InTicker(a: Announcement) { a.displayMode == "ticker" || a.displayMode == "both" }
  predicate InBanner(a: Announcement) { a.displayMode == "banner" || a.displayMode == "both" }

  /** The ticker keeps the 'ticker' and 'both' announcements in their order. */
  function Ticker(list: seq<Announcement>): (r: seq<Announcement>)
    ensures |r| <= |list|
    ensures forall k :: 0 <= k < |r| ==> InTicker(r[k]) && r[k] in list
  {
    if list == [] then []
    else
      var last := list[|list| - 1];
      Ticker(list[..|list| - 1]) + (if InTicker(last) then [last] else [])
  }

  /** The banners are the 'banner' and 'both' announcements not dismissed, in
      their order. */
  function Banners(list: seq<Announcement>, dismissedIds: seq<string>): (r: seq<Announcement>)
    ensures |r| <= |list|
    ensures forall k :: 0 <= k < |r| ==> InBanner(r[k]) && r[k].id !in dismissedIds && r[k] in list
  {
    if list == [] then []
    else
      var last := list[|list| - 1];
      Banners(list[..|list| - 1], dismissedIds) + (if InBanner(last) && last.id !in dismissedIds then [last] else [])
  }

  /** The ticker holds exactly the 'ticker' and 'both' announcements. */
  lemma {:induction false} TickerMembers(list: seq<Announcement>)
    ensures forall a :: a in Ticker(list) <==> a in list && InTicker(a)
    decreases |list|
  {
    if list != [] {
      var init := list[..|list| - 1];
      TickerMembers(init);
      assert forall a :: a in list <==> a in init || a == list[|list| - 1];
    }
  }

  /** The banners are exactly the undismissed 'banner' and 'both'
      announcements. */
  lemma {:induction false} BannerMembers(list: seq<Announcement>, dismissedIds: seq<string>)
    ensures forall a :: a in Banners(list, dismissedIds) <==> a in list && InBanner(a) && a.id !in dismissedIds
    decreases |list|
  {
    if list != [] {
      var init := list[..|list| - 1];
      BannerMembers(init, dismissedIds);
      assert forall a :: a in list <==> a in init || a == list[|list| - 1];
    }
  }

  /** Both filters keep the order of the list: filtering a concatenation is
      the concatenation of the filtered parts. */
  lemma {:induction false} TickerKeepsOrder(a: seq<Announcement>, b: seq<Announcement>)
    ensures Ticker(a + b) == Ticker(a) + Ticker(b)
    decreases |b|
  {
    if b == [] {
      assert a + b == a;
    } else {
      var bi := b[..|b| - 1];
      var ab := a + b;
      assert ab[..|ab| - 1] == a + bi;
      assert ab[|ab| - 1] == b[|b| - 1];
      TickerKeepsOrder(a, bi);
    }
  }

  lemma {:induction false} BannersKeepOrder(a: seq<Announcement>, b: seq<Announcement>, dismissedIds: seq<string>)
    ensures Banners(a + b, dismissedIds) == Banners(a, dismissedIds) + Banners(b, dismissedIds)
    decreases |b|
  {
    if b == [] {
      assert a + b == a;
    } else {
      var bi := b[..|b| - 1];
      var ab := a + b;
      assert ab[..|ab| - 1] == a + bi;
      assert ab[|ab| - 1] == b[|b| - 1];
      BannersKeepOrder(a, bi, dismissedIds);
    }
  }

  /** The message in German exactly when the interface language starts with
      "de"; `None` is an unset language. */
  function GetMessage(language: Option<string>, a: Announcement): (r: string)
    ensures language.Some? && StartsWith(language.value, "de") ==> r == a.messageDe
    ensures !(language.Some? && StartsWith(language.value, "de")) ==> r == a.messageEn
  {
    var lang := if language.Some? && StartsWith(language.value, "de") then "de" else "en";
    if lang == "de" then a.messageDe else a.messageEn
  }

  /** What is rendered: nothing while loading or with no announcements,
      otherwise the ticker and the banners. */
  function Render(loading: bool, list: seq<Announcement>, dismissedIds: seq<string>): (r: Option<(seq<Announcement>, seq<Announcement>)>)
    ensures r.None? <==> loading || list == []
    ensures r.Some? ==> r.value == (Ticker(list), Banners(list, dismissedIds))
  {
    if loading || |list| == 0 then None else Some((Ticker(list), Banners(list, dismissedIds)))
  }

  /** Dismissing hides exactly the banners with that id; every other banner
      and the whole ticker stay as they were. */
  lemma DismissHidesOnlyThatBanner(list: seq<Announcement>, dismissedIds: seq<string>, id: string)
    ensures forall a :: a in list && a.id == id ==> a !in Banners(list, dismissedIds + [id])
    ensures forall a: Announcement :: a.id != id ==> (a in Banners(list, dismissedIds + [id]) <==> a in Banners(list, dismissedIds))
    ensures forall a :: a in list && a.id == id && InTicker(a) ==> a in Ticker(list)
  {
    BannerMembers(list, dismissedIds);
    BannerMembers(list, dismissedIds + [id]);
    TickerMembers(list);
  }

  /** The component's state. */
  class Board {
    var announcements: seq<Announcement>
    var dismissedIds: seq<string>
    var loading: bool

    constructor (storedDismissed: seq<string>)
      ensures announcements == [] && dismissedIds == storedDismissed && loading
    {
      announcements := [];
      dismissedIds := storedDismissed;
      loading := true;
    }

    /** A load stores the result when the query succeeded and always ends the
        loading state. */
    method LoadAnnouncements(failed: bool, data: Option<seq<Announcement>>)
      modifies this
      ensures announcements == (if !failed && data.Some? then data.value else old(announcements))
      ensures dismissedIds == old(dismissedIds) && !loading
    {
      if !failed && data.Some? {
        announcements := data.value;
      }
      loading := false;
    }

    /** Appends the id to the dismissed list, keeping the earlier ids. */
    method DismissBanner(id: string)
      modifies this
      ensures dismissedIds == old(dismissedIds) + [id]
      ensures announcements == old(announcements) && loading == old(loading)
    {
      var newDismissed := dismissedIds + [id];
      dismissedIds := newDismissed;
    }
  }
}
