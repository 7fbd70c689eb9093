/** `PickerState`: the session list of the picker, the selection, the preview
    scroll offset, the page shown, the view mode and the delete confirmation
    dialog, with the event handler that drives them.

    The messages a session file holds are given by `load`, fixed when the
    picker is built; deleting the file of a removed session is left out. */
module Picker {
  import opened Wrappers
  import opened Sessions
  import opened Paging
  import opened PickerCache

  /** The picker shows 30 sessions per page. */
  const PageSize: nat := 30

  /** `usize::MAX` on a 64-bit target, where the preview scroll saturates. */
  const UsizeMax: nat := 0xFFFF_FFFF_FFFF_FFFF

  datatype ViewMode = Split | FullPreview | SessionOnly

  /** The view mode `toggle_view_mode` moves to. */
  function NextViewMode(m: ViewMode): ViewMode {
    match m
    case Split => FullPreview
    case FullPreview => SessionOnly
    case SessionOnly => Split
  }

  /** Toggling cycles through the three modes: every toggle changes the mode,
      two toggles do not return to it, and three do. */
  lemma ViewModeCycle(m: ViewMode)
    ensures NextViewMode(m) != m && NextViewMode(NextViewMode(m)) != m
    ensures NextViewMode(NextViewMode(NextViewMode(m))) == m
  {
  }

  /** The events of the picker. */
  datatype PickerEvent =
    | SelectNext | SelectPrev | SelectFirst | SelectLast | PageNext | PagePrev
    | ScrollUp | ScrollDown
    | Resume | Delete | ToggleViewMode | CopySessionId | NewSession
    | CycleViewMode | Refresh
    | ConfirmAction | CancelAction
    | Exit

  /** The text of the delete confirmation dialog. */
  function DeleteMessage(id: string): string {
    "Delete session '" + id + "'?\nThis action cannot be undone.\n\n"
      + "Press 'y' to confirm or 'n' to cancel."
  }

  /** `usize::saturating_add(1)`. */
  function SaturatingInc(x: nat): (r: nat)
    ensures x < UsizeMax ==> r == x + 1
    ensures x >= UsizeMax ==> r == UsizeMax
  {
    if x < UsizeMax then x + 1 else UsizeMax
  }

  /** `Vec::remove(i)`: the element at `i` is taken out and the others keep
      their order. */
  function RemoveAt(s: seq<SessionInfo>, i: nat): (r: seq<SessionInfo>)
    requires i < |s|
    ensures |r| == |s| - 1
    ensures forall j :: 0 <= j < i ==> r[j] == s[j]
    ensures forall j :: i <= j < |r| ==> r[j] == s[j + 1]
  {
    s[..i] + s[i + 1..]
  }

  /** Removing an element loses exactly that element. */
  lemma RemoveAtMultiset(s: seq<SessionInfo>, i: nat)
    requires i < |s|
    ensures multiset(RemoveAt(s, i)) + multiset{s[i]} == multiset(s)
  {
    assert s == s[..i] + [s[i]] + s[i + 1..];
  }

  /** The selection after the selected session is removed from a list that
      now has `len` sessions: it stays, unless it was the last one. */
  function SelectionAfterRemove(selected: nat, len: nat): (r: nat)
    ensures r <= selected <= r + 1
    ensures selected < len ==> r == selected
    ensures selected <= len && len > 0 ==> r < len
  {
    if selected >= len && selected > 0 then selected - 1 else selected
  }

  /** After a delete the selection lands on the session that followed the
      deleted one or, when the last one was deleted, on the one before it. */
  lemma DeleteSelectsNeighbour(s: seq<SessionInfo>, i: nat)
    requires i < |s| && |s| > 1
    ensures SelectionAfterRemove(i, |s| - 1) < |RemoveAt(s, i)|
    ensures RemoveAt(s, i)[SelectionAfterRemove(i, |s| - 1)] == if i + 1 < |s| then s[i + 1] else s[i - 1]
  {
  }

  /** The elements with indices `from` up to `to`, none when `to` is not past
      `from`: what a `for` loop over `from..to` visits. */
  function Slice(s: seq<SessionInfo>, from: nat, to: nat): seq<SessionInfo>
    requires from < to ==> to <= |s|
  {
    if from < to then s[from..to] else []
  }

  /** A range one longer visits one more element. */
  lemma SliceSnoc(s: seq<SessionInfo>, from: nat, to: nat)
    requires from <= to < |s|
    ensures Slice(s, from, to + 1) == Slice(s, from, to) + [s[to]]
  {
    if from < to {
      assert s[from..to + 1] == s[from..to] + [s[to]];
    }
  }

  class PickerState {
    var sessions: seq<SessionInfo>
    var selectedIdx: nat
    var scrollOffsetLeft: nat
    var scrollOffsetRight: nat
    const pagination: Pagination
    var viewMode: ViewMode
    var modalActive: bool
    var modalMessage: string
    const cache: CacheLayer
    /** The messages each session file holds. */
    const load: string -> seq<Message>

    /** The page object counts the sessions, with pages of 30. */
    ghost predicate Valid()
      reads this, pagination
    {
      && pagination.Valid() && pagination.itemsPerPage == PageSize
      && pagination.totalItems == |sessions|
      && scrollOffsetRight <= UsizeMax
    }

    /** An open dialog asks about the selected session, which exists. The
        event handler keeps this; the navigation methods called directly
        with the dialog open need not. */
    ghost predicate DialogAsksSelected()
      reads this
    {
      modalActive ==> selectedIdx < |sessions| && modalMessage == DeleteMessage(sessions[selectedIdx].id)
    }

    /** `extract_recent_messages_with_timestamps`: the last `limit` messages of
        a session file. */
    function RecentMessages(path: string, limit: nat): (r: seq<Message>)
      ensures |r| <= limit && |r| <= |load(path)|
    {
      KeepLast(load(path), limit)
    }

    /** `selected_session`. */
    function SelectedSession(): (r: Option<SessionInfo>)
      reads this
      ensures r.Some? <==> selectedIdx < |sessions|
      ensures r.Some? ==> r.value == sessions[selectedIdx]
    {
      if selectedIdx < |sessions| then Some(sessions[selectedIdx]) else None
    }

    /** `sessions.get(i)`, as a list of zero or one session. */
    function SessionsAt(i: nat): seq<SessionInfo>
      reads this
    {
      if i < |sessions| then [sessions[i]] else []
    }

    /** The sessions of the page shown, as `page_range` visits them. */
    function VisibleSessions(): (r: seq<SessionInfo>)
      reads this, pagination
      requires Valid()
      ensures |r| <= PageSize
      ensures |r| > 0 ==> pagination.PageStart() + |r| <= |sessions|
      ensures forall i :: 0 <= i < |r| ==> r[i] == sessions[pagination.PageStart() + i]
    {
      assert (pagination.currentPage + 1) * PageSize == pagination.currentPage * PageSize + PageSize;
      Slice(sessions, pagination.PageStart(), pagination.PageEnd())
    }

    /** The sessions `prefetch_adjacent_sessions` visits: the next one, then
        the previous one. */
    function AdjacentSessions(): (r: seq<SessionInfo>)
      reads this
      ensures |r| <= 2 && forall i :: 0 <= i < |r| ==> r[i] in sessions
    {
      (if selectedIdx + 1 < |sessions| then SessionsAt(selectedIdx + 1) else [])
        + (if selectedIdx > 0 then SessionsAt(selectedIdx - 1) else [])
    }

    /** `current_page_sessions`, which slices the list by the page range; the
        slice would panic if the page started past its end. */
    function CurrentPageSessions(): (r: seq<SessionInfo>)
      reads this, pagination
      requires Valid() && pagination.PageStart() <= pagination.PageEnd()
      ensures |r| == pagination.PageEnd() - pagination.PageStart()
      ensures forall i :: 0 <= i < |r| ==> r[i] == sessions[pagination.PageStart() + i]
    {
      sessions[pagination.PageStart()..pagination.PageEnd()]
    }

    /** `cache_stats`. */
    function CacheStats(): (nat, nat, nat, nat)
      reads cache
    {
      cache.Stats()
    }

    // -------------------------------------------------------------------------
    // What each operation may change

    /** The list, the page object's counts, the dialog, the view mode and the
        left scroll offset are as they were. */
    twostate predicate Framed()
      reads this, pagination
    {
      && sessions == old(sessions)
      && pagination.totalItems == old(pagination.totalItems)
      && pagination.itemsPerPage == old(pagination.itemsPerPage)
      && modalActive == old(modalActive) && modalMessage == old(modalMessage)
      && viewMode == old(viewMode) && scrollOffsetLeft == old(scrollOffsetLeft)
    }

    /** The selection, the preview scroll and the page are as they were. */
    twostate predicate PositionKept()
      reads this, pagination
    {
      && selectedIdx == old(selectedIdx) && scrollOffsetRight == old(scrollOffsetRight)
      && pagination.currentPage == old(pagination.currentPage)
    }

    /** Nothing changed. */
    twostate predicate NothingChanged()
      reads this, pagination, cache
    {
      Framed() && PositionKept() && cache.Kept()
    }

    /** `select_next`: moves down one session when one follows, resetting the
        preview scroll and prefetching the neighbours; otherwise nothing moves. */
    twostate predicate SteppedNext()
      reads this, pagination, cache
    {
      && Framed() && pagination.currentPage == old(pagination.currentPage)
      && if old(selectedIdx) + 1 < |sessions| then
           && selectedIdx == old(selectedIdx) + 1 && scrollOffsetRight == 0
           && cache.Prefetched(AdjacentSessions(), load)
         else
           PositionKept() && cache.Kept()
    }

    /** `select_prev`: moves up one session unless on the first. */
    twostate predicate SteppedPrev()
      reads this, pagination, cache
    {
      && Framed() && pagination.currentPage == old(pagination.currentPage)
      && if old(selectedIdx) > 0 then
           && selectedIdx == old(selectedIdx) - 1 && scrollOffsetRight == 0
           && cache.Prefetched(AdjacentSessions(), load)
         else
           PositionKept() && cache.Kept()
    }

    /** `select_first` and `select_last`: the selection jumps to `target` and
        the preview scroll resets; nothing is prefetched. */
    twostate predicate Jumped(target: nat)
      reads this, pagination, cache
    {
      && Framed() && pagination.currentPage == old(pagination.currentPage) && cache.Kept()
      && selectedIdx == target && scrollOffsetRight == 0
    }

    /** `next_page` and `prev_page`: when the page object moved, the selection
        goes to the first index of the new page, the scroll resets and the
        new page is prefetched; otherwise nothing changes. */
    twostate predicate Paged(moved: bool, page: int)
      reads this, pagination, cache
      requires Valid()
    {
      && Framed()
      && if moved then
           && pagination.currentPage == page
           && selectedIdx == pagination.PageStart() && scrollOffsetRight == 0
           && cache.Prefetched(VisibleSessions(), load)
         else
           PositionKept() && cache.Kept()
    }

    /** The preview scroll became `offset`; nothing else changed. */
    twostate predicate Scrolled(offset: nat)
      reads this, pagination, cache
    {
      && Framed() && cache.Kept() && scrollOffsetRight == offset
      && selectedIdx == old(selectedIdx) && pagination.currentPage == old(pagination.currentPage)
    }

    /** `toggle_view_mode`: only the view mode moves on. */
    twostate predicate Toggled()
      reads this, pagination, cache
    {
      && sessions == old(sessions)
      && pagination.totalItems == old(pagination.totalItems)
      && pagination.itemsPerPage == old(pagination.itemsPerPage)
      && modalActive == old(modalActive) && modalMessage == old(modalMessage)
      && scrollOffsetLeft == old(scrollOffsetLeft)
      && PositionKept() && cache.Kept()
      && viewMode == NextViewMode(old(viewMode))
    }

    /** The list, the counts, the view, the position and the caches are as
        they were; only the dialog may have changed. */
    twostate predicate OnlyDialogChanged()
      reads this, pagination, cache
    {
      && sessions == old(sessions)
      && pagination.totalItems == old(pagination.totalItems)
      && pagination.itemsPerPage == old(pagination.itemsPerPage)
      && viewMode == old(viewMode) && scrollOffsetLeft == old(scrollOffsetLeft)
      && PositionKept() && cache.Kept()
    }

    /** `confirm_delete`: with a session selected, the dialog opens asking
        about it; without one, nothing changes. */
    twostate predicate DialogOpened()
      reads this, pagination, cache
    {
      && OnlyDialogChanged()
      && if old(selectedIdx) < |old(sessions)| then
           modalActive && modalMessage == DeleteMessage(old(sessions)[old(selectedIdx)].id)
         else
           modalActive == old(modalActive) && modalMessage == old(modalMessage)
    }

    /** `close_modal`: the dialog is closed and its text cleared. */
    twostate predicate DialogClosed()
      reads this, pagination, cache
    {
      OnlyDialogChanged() && !modalActive && modalMessage == ""
    }

    /** A confirmed delete: the selected session leaves the list, the others
        keep their order, the dialog flag drops (its text stays), the
        selection steps back if it fell off the end, the page object counts
        the shorter list and only that session's preview is forgotten. The
        page shown is not clamped. Without a selection nothing changes. */
    twostate predicate DeletedSelected()
      reads this, pagination, cache
    {
      if old(selectedIdx) < |old(sessions)| then
        && sessions == RemoveAt(old(sessions), old(selectedIdx))
        && selectedIdx == SelectionAfterRemove(old(selectedIdx), |sessions|)
        && !modalActive && modalMessage == old(modalMessage)
        && pagination.totalItems == |sessions|
        && pagination.itemsPerPage == old(pagination.itemsPerPage)
        && pagination.currentPage == old(pagination.currentPage)
        && viewMode == old(viewMode) && scrollOffsetLeft == old(scrollOffsetLeft)
        && scrollOffsetRight == old(scrollOffsetRight)
        && cache.OnlyPreviewsChanged()
        && cache.PreviewState() == old(cache.PreviewState()).(cache := old(cache.previewCache) - {old(sessions)[old(selectedIdx)].id})
      else
        NothingChanged()
    }

    /** What `handle_event` does with the dialog open. */
    twostate predicate DialogStep(event: PickerEvent, new r: Option<string>)
      reads this, pagination, cache
    {
      && r == None
      && match event
         case ConfirmAction => DeletedSelected()
         case CancelAction => DialogClosed()
         case _ => NothingChanged()
    }

    /** What `handle_event` does with the dialog closed. */
    twostate predicate NormalStep(event: PickerEvent, new r: Option<string>)
      reads this, pagination, cache
      requires old(Valid()) && Valid()
    {
      match event
      case SelectNext => r == None && SteppedNext()
      case SelectPrev => r == None && SteppedPrev()
      case SelectFirst => r == None && Jumped(0)
      case SelectLast => r == None && Jumped(SaturatingSub(|sessions|, 1))
      case PageNext =>
        r == None && Paged(old(pagination.HasNext()), old(pagination.currentPage) + 1)
      case PagePrev =>
        r == None && Paged(old(pagination.HasPrev()), old(pagination.currentPage) - 1)
      case ScrollUp => r == None && Scrolled(SaturatingSub(old(scrollOffsetRight), 1))
      case ScrollDown => r == None && Scrolled(SaturatingInc(old(scrollOffsetRight)))
      case ToggleViewMode => r == None && Toggled()
      case CycleViewMode => r == None && Toggled()
      case Resume =>
        && r == (if old(SelectedSession()).Some? then Some(old(SelectedSession()).value.id) else None)
        && NothingChanged()
      case Delete => r == None && DialogOpened()
      case Exit => r == Some("") && NothingChanged()
      case _ => r == None && NothingChanged()
    }

    // -------------------------------------------------------------------------
    // Operations

    /** `PickerState::new`: the first session selected on the first page of
        30, the split view, no dialog, and the first page prefetched into
        empty caches. */
    constructor (sessions: seq<SessionInfo>, load: string -> seq<Message>)
      ensures Valid() && DialogAsksSelected()
      ensures this.sessions == sessions && this.load == load
      ensures selectedIdx == 0 && scrollOffsetLeft == 0 && scrollOffsetRight == 0
      ensures viewMode == Split && !modalActive && modalMessage == ""
      ensures pagination.currentPage == 0
      ensures cache.metaCache == map[] && cache.summaryCache == map[]
      ensures cache.metaHits == 0 && cache.metaMisses == 0
      ensures cache.PreviewState() == Prefetch(Previews(map[], 0, 0), VisibleSessions(), load)
    {
      this.sessions := sessions;
      selectedIdx, scrollOffsetLeft, scrollOffsetRight := 0, 0, 0;
      pagination := new Pagination(|sessions|, PageSize);
      viewMode := Split;
      modalActive, modalMessage := false, "";
      cache := new CacheLayer();
      this.load := load;
      new;
      PrefetchVisiblePage();
    }

    /** `prefetch_preview_for_index`: an existing session whose preview is not
        cached gets its last six messages cached; the lookup is counted. */
    method PrefetchPreviewForIndex(idx: nat)
      modifies cache
      ensures cache.Prefetched(SessionsAt(idx), load)
    {
      if idx < |sessions| {
        var session := sessions[idx];
        var cached := cache.GetPreview(session.id);
        if cached.None? {
          var messages := RecentMessages(session.path, PrefetchLimit);
          cache.CachePreview(session.id, messages);
        }
        PrefetchSingle(old(cache.previewCache), session, load);
      } else {
        PrefetchNothing(cache.PreviewState(), load);
      }
    }

    /** `prefetch_adjacent_sessions`: the next session, then the previous one. */
    method PrefetchAdjacentSessions()
      modifies cache
      ensures cache.Prefetched(AdjacentSessions(), load)
    {
      var first: seq<SessionInfo> := [];
      if selectedIdx + 1 < |sessions| {
        PrefetchPreviewForIndex(selectedIdx + 1);
        first := SessionsAt(selectedIdx + 1);
      } else {
        PrefetchNothing(cache.PreviewState(), load);
      }
      ghost var mid := cache.PreviewState();
      var second: seq<SessionInfo> := [];
      if selectedIdx > 0 {
        PrefetchPreviewForIndex(selectedIdx - 1);
        second := SessionsAt(selectedIdx - 1);
      } else {
        PrefetchNothing(mid, load);
      }
      PrefetchThen(old(cache.PreviewState()), first, second, load);
    }

    /** `prefetch_visible_page`: every session of the page shown, in order. */
    method PrefetchVisiblePage()
      requires Valid()
      modifies cache
      ensures cache.Prefetched(VisibleSessions(), load)
    {
      PrefetchRange(pagination.PageStart(), pagination.PageEnd());
    }

    /** The loop of `prefetch_visible_page` over the indices `start..end`. */
    method PrefetchRange(start: nat, end: nat)
      requires start < end ==> end <= |sessions|
      modifies cache
      ensures cache.Prefetched(Slice(sessions, start, end), load)
    {
      ghost var initial := cache.PreviewState();
      PrefetchNothing(initial, load);
      var idx := start;
      while idx < end
        invariant idx == start || start < idx <= end
        invariant cache.OnlyPreviewsChanged()
        invariant cache.PreviewState() == Prefetch(initial, Slice(sessions, start, idx), load)
        decreases end as int - idx as int
      {
        ghost var done, before := Slice(sessions, start, idx), cache.PreviewState();
        PrefetchPreviewForIndex(idx);
        assert cache.PreviewState() == Prefetch(before, [sessions[idx]], load);
        PrefetchThen(initial, done, [sessions[idx]], load);
        SliceSnoc(sessions, start, idx);
        idx := idx + 1;
      }
    }

    /** `next_page`. */
    method NextPage()
      requires Valid()
      modifies this, pagination, cache
      ensures Valid()
      ensures Paged(old(pagination.HasNext()), old(pagination.currentPage) + 1)
    {
      var moved := pagination.NextPage();
      if moved {
        selectedIdx := pagination.PageStart();
        scrollOffsetRight := 0;
        PrefetchVisiblePage();
      }
    }

    /** `prev_page`. */
    method PrevPage()
      requires Valid()
      modifies this, pagination, cache
      ensures Valid()
      ensures Paged(old(pagination.HasPrev()), old(pagination.currentPage) - 1)
    {
      var moved := pagination.PrevPage();
      if moved {
        selectedIdx := pagination.PageStart();
        scrollOffsetRight := 0;
        PrefetchVisiblePage();
      }
    }

    /** `select_prev`. */
    method SelectPrev()
      requires Valid()
      modifies this, cache
      ensures Valid() && SteppedPrev()
    {
      if selectedIdx > 0 {
        selectedIdx := selectedIdx - 1;
        scrollOffsetRight := 0;
        PrefetchAdjacentSessions();
      }
    }

    /** `select_next`: the bound is `len().saturating_sub(1)`. */
    method SelectNext()
      requires Valid()
      modifies this, cache
      ensures Valid() && SteppedNext()
    {
      assert selectedIdx < SaturatingSub(|sessions|, 1) <==> selectedIdx + 1 < |sessions|;
      if selectedIdx < SaturatingSub(|sessions|, 1) {
        selectedIdx := selectedIdx + 1;
        scrollOffsetRight := 0;
        PrefetchAdjacentSessions();
      }
    }

    /** `select_first`. */
    method SelectFirst()
      requires Valid()
      modifies this
      ensures Valid() && Jumped(0)
    {
      selectedIdx := 0;
      scrollOffsetRight := 0;
    }

    /** `select_last`: the last session, or index 0 for an empty list. */
    method SelectLast()
      requires Valid()
      modifies this
      ensures Valid() && Jumped(SaturatingSub(|sessions|, 1))
    {
      selectedIdx := SaturatingSub(|sessions|, 1);
      scrollOffsetRight := 0;
    }

    /** `scroll_preview_up`, saturating at zero. */
    method ScrollPreviewUp()
      requires Valid()
      modifies this
      ensures Valid() && Scrolled(SaturatingSub(old(scrollOffsetRight), 1))
    {
      scrollOffsetRight := SaturatingSub(scrollOffsetRight, 1);
    }

    /** `scroll_preview_down`, saturating at `usize::MAX`. */
    method ScrollPreviewDown()
      requires Valid()
      modifies this
      ensures Valid() && Scrolled(SaturatingInc(old(scrollOffsetRight)))
    {
      scrollOffsetRight := SaturatingInc(scrollOffsetRight);
    }

    /** `toggle_view_mode`. */
    method ToggleViewMode()
      requires Valid()
      modifies this
      ensures Valid() && Toggled()
    {
      viewMode := NextViewMode(viewMode);
    }

    /** `confirm_delete`. */
    method ConfirmDelete()
      requires Valid()
      modifies this
      ensures Valid() && DialogOpened()
    {
      if selectedIdx < |sessions| {
        var session := sessions[selectedIdx];
        modalActive := true;
        modalMessage := DeleteMessage(session.id);
      }
    }

    /** `close_modal`. */
    method CloseModal()
      requires Valid()
      modifies this
      ensures Valid() && DialogClosed()
    {
      modalActive := false;
      modalMessage := "";
    }

    /** The `ConfirmAction` branch of `handle_event` with the dialog open. */
    method DeleteSelected()
      requires Valid()
      modifies this, pagination, cache
      ensures Valid() && DeletedSelected()
    {
      if selectedIdx < |sessions| {
        var session := sessions[selectedIdx];
        modalActive := false;
        sessions := RemoveAt(sessions, selectedIdx);
        if selectedIdx >= |sessions| && selectedIdx > 0 {
          selectedIdx := selectedIdx - 1;
        }
        pagination.totalItems := |sessions|;
        cache.RemovePreview(session.id);
      }
    }

    /** `get_or_fetch_preview`: a cached preview is returned as it is (whatever
        its length); otherwise the last `limit` messages are read, cached and
        returned. The lookup is counted either way. */
    method GetOrFetchPreview(session: SessionInfo, limit: nat) returns (messages: seq<Message>)
      modifies cache
      ensures cache.OnlyPreviewsChanged()
      ensures old(session.id in cache.previewCache) ==>
        && messages == old(cache.previewCache[session.id])
        && cache.PreviewState() == old(cache.PreviewState()).(hits := old(cache.previewHits) + 1)
      ensures old(session.id !in cache.previewCache) ==>
        && messages == RecentMessages(session.path, limit)
        && cache.PreviewState() == Previews(old(cache.previewCache)[session.id := messages], old(cache.previewHits), old(cache.previewMisses) + 1)
    {
      var cached := cache.GetPreview(session.id);
      if cached.Some? {
        return cached.value;
      }
      messages := RecentMessages(session.path, limit);
      cache.CachePreview(session.id, messages);
    }

    /** `clear_cache`. */
    method ClearCache()
      modifies cache
      ensures cache.metaCache == map[] && cache.previewCache == map[] && cache.summaryCache == map[]
      ensures cache.Stats() == old(cache.Stats())
    {
      cache.Clear();
    }

    /** `handle_event`. With the dialog open only a confirm or a cancel has an
        effect and nothing is returned; otherwise the event runs its
        operation, `Resume` returns the selected session's id and `Exit`
        returns the empty string. */
    method HandleEvent(event: PickerEvent) returns (r: Option<string>)
      requires Valid()
      modifies this, pagination, cache
      ensures Valid()
      ensures old(DialogAsksSelected()) ==> DialogAsksSelected()
      ensures old(modalActive) ==> DialogStep(event, r)
      ensures !old(modalActive) ==> NormalStep(event, r)
    {
      if modalActive {
        match event {
          case ConfirmAction => DeleteSelected();
          case CancelAction => CloseModal();
          case _ =>
        }
        return None;
      }
      r := None;
      match event {
        case SelectNext => SelectNext();
        case SelectPrev => SelectPrev();
        case SelectFirst => SelectFirst();
        case SelectLast => SelectLast();
        case PageNext => NextPage();
        case PagePrev => PrevPage();
        case ScrollUp => ScrollPreviewUp();
        case ScrollDown => ScrollPreviewDown();
        case ToggleViewMode => ToggleViewMode();
        case CycleViewMode => ToggleViewMode();
        case Resume =>
          var selected := SelectedSession();
          if selected.Some? {
            return Some(selected.value.id);
          }
        case Delete => ConfirmDelete();
        case Exit => return Some("");
        case _ =>
      }
    }
  }

  // ---------------------------------------------------------------------------
  // Scenarios

  /** Three presses of the view key come back to the view mode left. */
  method ThreeToggles(picker: PickerState)
    requires picker.Valid() && !picker.modalActive
    modifies picker, picker.pagination, picker.cache
    ensures picker.viewMode == old(picker.viewMode) && picker.sessions == old(picker.sessions)
  {
    ViewModeCycle(picker.viewMode);
    var a := picker.HandleEvent(CycleViewMode);
    var b := picker.HandleEvent(CycleViewMode);
    var c := picker.HandleEvent(CycleViewMode);
  }

  /** Pressing delete and then confirming removes the selected session and
      closes the dialog; the selection stays inside a non-empty list. */
  method DeleteAndConfirm(picker: PickerState)
    requires picker.Valid() && !picker.modalActive && picker.selectedIdx < |picker.sessions|
    modifies picker, picker.pagination, picker.cache
    ensures picker.DialogAsksSelected()
    ensures picker.sessions == RemoveAt(old(picker.sessions), old(picker.selectedIdx))
    ensures !picker.modalActive
    ensures picker.sessions != [] ==> picker.selectedIdx < |picker.sessions|
  {
    var a := picker.HandleEvent(Delete);
    assert picker.modalActive;
    var b := picker.HandleEvent(ConfirmAction);
  }

  /** Pressing delete and then cancelling leaves the list as it was. */
  method DeleteAndCancel(picker: PickerState)
    requires picker.Valid() && !picker.modalActive && picker.selectedIdx < |picker.sessions|
    modifies picker, picker.pagination, picker.cache
    ensures picker.sessions == old(picker.sessions) && picker.selectedIdx == old(picker.selectedIdx)
    ensures !picker.modalActive && picker.modalMessage == ""
  {
    var a := picker.HandleEvent(Delete);
    var b := picker.HandleEvent(CancelAction);
  }

  /** Deletes do not move the page shown, so once the list has shrunk below
      the page before it, going back a page selects an index past the end of
      the list: with 60 sessions left on page 3 (the fourth), the selection
      becomes 60 and no session is selected. */
  method StalePagePrev(picker: PickerState)
    requires picker.Valid() && !picker.modalActive
    requires picker.pagination.currentPage == 3 && |picker.sessions| == 60
    modifies picker, picker.pagination, picker.cache
    ensures picker.selectedIdx == 60 && picker.SelectedSession() == None
  {
    var r := picker.HandleEvent(PagePrev);
  }
}
