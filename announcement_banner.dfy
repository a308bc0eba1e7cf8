/**
 * The announcement banner: it fetches the active announcements, reveals them
 * one by one, and remembers the ids the visitor dismissed, in component state
 * and in browser storage under `dismissedAnnouncements` (kept here as the
 * already-parsed list of ids).
 */
module AnnouncementBanner {
  import opened Text

  const DismissedKey := "dismissedAnnouncements"

  datatype Announcement = Announcement(id: string, title: string, message: string, kind: string, createdAt: string)

  datatype BannerState = BannerState(
    announcements: seq<Announcement>, dismissedIds: seq<string>, visible: seq<string>,
    stored: Option<seq<string>>)

  /** The banner as first rendered, before storage is read. */
  function InitialBanner(stored: Option<seq<string>>): BannerState {
    BannerState([], [], [], stored)
  }

  /** Not dismissed, in the order fetched: these get a reveal timer each. */
  function Active(announcements: seq<Announcement>, dismissedIds: seq<string>): (r: seq<Announcement>)
    ensures forall a :: a in r <==> a in announcements && a.id !in dismissedIds
    ensures |r| <= |announcements|
  {
    if announcements == [] then []
    else
      var rest := Active(announcements[1..], dismissedIds);
      if announcements[0].id !in dismissedIds then [announcements[0]] + rest else rest
  }

  /** What is rendered: not dismissed and already revealed, in the order fetched. */
  function Shown(s: BannerState): (r: seq<Announcement>)
    ensures forall a :: a in r <==> a in s.announcements && a.id !in s.dismissedIds && a.id in s.visible
  {
    ShownOfMembers(s.announcements, s.dismissedIds, s.visible);
    ShownOf(s.announcements, s.dismissedIds, s.visible)
  }

  function ShownOf(xs: seq<Announcement>, dismissedIds: seq<string>, visible: seq<string>): (r: seq<Announcement>)
    ensures |r| <= |xs|
  {
    if xs == [] then []
    else
      var keep := xs[0].id !in dismissedIds && xs[0].id in visible;
      (if keep then [xs[0]] else []) + ShownOf(xs[1..], dismissedIds, visible)
  }

  /** An announcement is selected exactly when it was fetched, is not dismissed and is revealed. */
  lemma {:induction false} ShownOfMembers(xs: seq<Announcement>, dismissedIds: seq<string>, visible: seq<string>)
    ensures forall a :: a in ShownOf(xs, dismissedIds, visible) <==> a in xs && a.id !in dismissedIds && a.id in visible
  {
    if xs != [] {
      ShownOfMembers(xs[1..], dismissedIds, visible);
      assert xs == [xs[0]] + xs[1..];
    }
  }

  /** The selection distributes over concatenation, so the banner keeps the order of the fetched list. */
  lemma {:induction false} ShownOfAppend(xs: seq<Announcement>, ys: seq<Announcement>, dismissedIds: seq<string>, visible: seq<string>)
    ensures ShownOf(xs + ys, dismissedIds, visible) == ShownOf(xs, dismissedIds, visible) + ShownOf(ys, dismissedIds, visible)
  {
    if xs == [] {
      assert xs + ys == ys;
    } else {
      var zs := xs + ys;
      assert zs[0] == xs[0] && zs[1..] == xs[1..] + ys;
      var head := if xs[0].id !in dismissedIds && xs[0].id in visible then [xs[0]] else [];
      assert ShownOf(zs, dismissedIds, visible) == head + ShownOf(xs[1..] + ys, dismissedIds, visible);
      assert ShownOf(xs, dismissedIds, visible) == head + ShownOf(xs[1..], dismissedIds, visible);
      ShownOfAppend(xs[1..], ys, dismissedIds, visible);
    }
  }

  /** Once every reveal timer has fired, exactly the announcements not dismissed are shown, in order. */
  lemma {:induction false} AllRevealedShowsActive(xs: seq<Announcement>, dismissedIds: seq<string>, visible: seq<string>)
    requires forall a :: a in Active(xs, dismissedIds) ==> a.id in visible
    ensures ShownOf(xs, dismissedIds, visible) == Active(xs, dismissedIds)
  {
    if xs != [] {
      assert xs[0].id !in dismissedIds ==> xs[0] in Active(xs, dismissedIds);
      AllRevealedShowsActive(xs[1..], dismissedIds, visible);
    }
  }

  /** The mount effect: a stored list replaces the empty dismissed list. */
  function MountStep(s: BannerState): BannerState {
    if s.stored.Some? then s.(dismissedIds := s.stored.value) else s
  }

  /** The fetch: the list on success, an empty list on failure. */
  function FetchStep(s: BannerState, response: Option<seq<Announcement>>): BannerState {
    s.(announcements := if response.Some? then response.value else [])
  }

  /** A reveal timer: the id is appended to the visible list. */
  function RevealStep(s: BannerState, id: string): BannerState {
    s.(visible := s.visible + [id])
  }

  function RemoveId(ids: seq<string>, id: string): (r: seq<string>)
    ensures forall x :: x in r <==> x in ids && x != id
  {
    if ids == [] then [] else (if ids[0] == id then [] else [ids[0]]) + RemoveId(ids[1..], id)
  }

  /** Removing from a suffix: its first element goes unless it is the id. */
  lemma RemoveIdFrom(ids: seq<string>, i: nat, id: string)
    requires i < |ids|
    ensures RemoveId(ids[i..], id) == (if ids[i] == id then [] else [ids[i]]) + RemoveId(ids[i + 1..], id)
  {
    assert ids[i..][0] == ids[i] && ids[i..][1..] == ids[i + 1..];
  }

  /** `dismissAnnouncement`: hide the id, then append it to the dismissed list and persist that list. */
  function DismissStep(s: BannerState, id: string): BannerState {
    var dismissed := s.dismissedIds + [id];
    s.(visible := RemoveId(s.visible, id), dismissedIds := dismissed, stored := Some(dismissed))
  }

  /** After mounting, the stored dismissals are in effect. */
  lemma MountLoadsDismissed(stored: seq<string>)
    ensures MountStep(InitialBanner(Some(stored))).dismissedIds == stored
    ensures MountStep(InitialBanner(None)).dismissedIds == []
  {
  }

  /** A failed fetch leaves nothing to show. */
  lemma FailedFetchShowsNothing(s: BannerState)
    ensures FetchStep(s, None).announcements == [] && Shown(FetchStep(s, None)) == []
  {
  }

  /**
   * Dismissing hides every announcement with that id; every other
   * announcement stays shown exactly when it was; the stored list is the old
   * dismissed list followed by the id.
   */
  lemma DismissHides(s: BannerState, id: string)
    ensures var r := DismissStep(s, id);
      && (forall a: Announcement :: a in Shown(r) ==> a.id != id)
      && (forall a: Announcement :: a.id != id ==> (a in Shown(r) <==> a in Shown(s)))
      && r.dismissedIds == s.dismissedIds + [id] && r.stored == Some(r.dismissedIds)
      && id !in r.visible
  {
  }

  /** A revealed announcement that was not dismissed is shown. */
  lemma RevealShows(s: BannerState, a: Announcement)
    requires a in s.announcements && a.id !in s.dismissedIds
    ensures a in Shown(RevealStep(s, a.id))
  {
  }

  /** Storage always holds what the last dismissal wrote, and a dismissal persists every id dismissed so far. */
  lemma DismissPersists(s: BannerState, id: string, x: string)
    requires x in s.dismissedIds || x == id
    ensures var r := DismissStep(s, id); r.stored.Some? && x in r.stored.value
  {
  }

  // ---------------------------------------------------------------------------
  // Styles

  datatype Style = Style(bg: string, icon: string, textColor: string)

  const UrgentStyle := Style("bg-gradient-to-r from-pink-500 to-red-500", "🚫", "text-white")
  const WarningStyle := Style("bg-gradient-to-r from-yellow-400 to-yellow-500", "⚠️", "text-gray-900")
  const InfoStyle := Style("bg-gradient-to-r from-teal-400 to-cyan-500", "✓", "text-gray-900")

  function StyleOf(kind: string): Style {
    if kind == "urgent" then UrgentStyle
    else if kind == "warning" then WarningStyle
    else InfoStyle
  }

  /** `urgent` and `warning` have their own styles; every other type, `info` included, gets the info style. */
  lemma StyleOfCases(kind: string)
    ensures StyleOf(kind) == UrgentStyle <==> kind == "urgent"
    ensures StyleOf(kind) == WarningStyle <==> kind == "warning"
    ensures StyleOf(kind) == InfoStyle <==> kind != "urgent" && kind != "warning"
  {
    assert UrgentStyle.textColor != InfoStyle.textColor;
    assert WarningStyle.bg[22] != InfoStyle.bg[22] && UrgentStyle.bg[22] != WarningStyle.bg[22];
  }

  // ---------------------------------------------------------------------------
  // The component

  class Banner {
    var announcements: seq<Announcement>
    var dismissedIds: seq<string>
    var visible: seq<string>
    var stored: Option<seq<string>>

    function State(): BannerState
      reads this
    {
      BannerState(announcements, dismissedIds, visible, stored)
    }

    constructor (stored: Option<seq<string>>)
      ensures State() == InitialBanner(stored)
    {
      announcements, dismissedIds, visible := [], [], [];
      this.stored := stored;
    }

    method Mount()
      modifies this
      ensures State() == MountStep(old(State()))
    {
      if stored.Some? {
        dismissedIds := stored.value;
      }
    }

    method FetchAnnouncements(response: Option<seq<Announcement>>)
      modifies this
      ensures State() == FetchStep(old(State()), response)
    {
      if response.Some? {
        announcements := response.value;
      } else {
        announcements := [];
      }
    }

    method Reveal(id: string)
      modifies this
      ensures State() == RevealStep(old(State()), id)
    {
      visible := visible + [id];
    }

    /** Removes `id` from the visible list with a filtering loop, then records and persists the dismissal. */
    method DismissAnnouncement(id: string)
      modifies this
      ensures State() == DismissStep(old(State()), id)
    {
      var kept: seq<string> := [];
      var i := 0;
      while i < |visible|
        invariant 0 <= i <= |visible|
        invariant kept + RemoveId(visible[i..], id) == RemoveId(visible, id)
        modifies {}
      {
        RemoveIdFrom(visible, i, id);
        if visible[i] != id {
          kept := kept + [visible[i]];
        }
        i := i + 1;
      }
      assert visible[|visible|..] == [];
      visible := kept;
      var newDismissed := dismissedIds + [id];
      dismissedIds := newDismissed;
      stored := Some(newDismissed);
    }
  }
}
