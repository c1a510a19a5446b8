/**
 * The course-group picker: a search box over the groups on offer, a dropdown
 * of the groups whose name contains the (debounced) query, and keyboard
 * navigation. Selection and removal are forwarded to the page; the picker
 * itself keeps only the search box and the highlight.
 */
module CourseGroupSelector {
  import opened Wrappers
  import opened Strings
  import opened Highlight

  /** A group is listed when its name contains the query, ignoring case. */
  predicate Listed(query: string, g: string) {
    Contains(ToLower(g), ToLower(query))
  }

  /** `filteredGroups`: groups already selected stay in the list. */
  function FilteredGroups(available: seq<string>, query: string): seq<string> {
    if available == [] then []
    else (if Listed(query, available[0]) then [available[0]] else []) + FilteredGroups(available[1..], query)
  }

  predicate HasNoMatches(query: string, filtered: seq<string>) {
    query != "" && |filtered| == 0
  }

  /**
   * The groups listed are exactly the offered groups whose name contains the
   * query ignoring case, in the order offered, whether or not they are
   * selected; an empty query lists every group.
   */
  lemma FilteredGroupsSpec(available: seq<string>, more: seq<string>, query: string, g: string)
    ensures g in FilteredGroups(available, query) <==> g in available && Listed(query, g)
    ensures query == "" ==> FilteredGroups(available, query) == available
    ensures FilteredGroups(available + more, query) == FilteredGroups(available, query) + FilteredGroups(more, query)
  {
    ListedMembers(available, query, g);
    ListedConcat(available, more, query);
    if query == "" {
      EmptyQueryListsAll(available);
    }
  }

  lemma {:induction false} ListedMembers(available: seq<string>, query: string, g: string)
    ensures g in FilteredGroups(available, query) <==> g in available && Listed(query, g)
  {
    if available != [] {
      ListedMembers(available[1..], query, g);
      assert available == [available[0]] + available[1..];
    }
  }

  lemma {:induction false} ListedConcat(available: seq<string>, more: seq<string>, query: string)
    ensures FilteredGroups(available + more, query) == FilteredGroups(available, query) + FilteredGroups(more, query)
  {
    if available == [] {
      assert available + more == more;
    } else {
      assert (available + more)[1..] == available[1..] + more;
      ListedConcat(available[1..], more, query);
    }
  }

  lemma {:induction false} EmptyQueryListsAll(available: seq<string>)
    ensures FilteredGroups(available, "") == available
  {
    if available != [] {
      assert OccursAt(ToLower(available[0]), "", 0);
      EmptyQueryListsAll(available[1..]);
      assert available == [available[0]] + available[1..];
    }
  }

  /** What the dropdown under the search box shows. */
  datatype GroupDropdown =
    | Closed
    | Options(groups: seq<string>)
    | DoesNotExist(name: string)
    | AlreadySelected(name: string)

  function Dropdown(available: seq<string>, selected: seq<string>, query: string): GroupDropdown {
    var filtered := FilteredGroups(available, query);
    if query == "" then Closed
    else if |filtered| > 0 then Options(filtered)
    else if !(exists k :: 0 <= k < |selected| && EqualsIgnoreCase(selected[k], query)) then DoesNotExist(query)
    else AlreadySelected(query)
  }

  /**
   * The dropdown is closed exactly for an empty query and lists the matches
   * when there are any. With no matches it says the group is already
   * selected exactly when a selected group equals the query ignoring case,
   * and that no such group exists otherwise.
   */
  lemma DropdownSpec(available: seq<string>, selected: seq<string>, query: string)
    ensures var d := Dropdown(available, selected, query);
      var filtered := FilteredGroups(available, query);
      (d.Closed? <==> query == "") &&
      (d.Options? <==> query != "" && |filtered| > 0) &&
      (d.Options? ==> d.groups == filtered) &&
      (HasNoMatches(query, filtered) ==>
         (d.AlreadySelected? <==> exists k :: 0 <= k < |selected| && EqualsIgnoreCase(selected[k], query)) &&
         (d.DoesNotExist? <==> !exists k :: 0 <= k < |selected| && EqualsIgnoreCase(selected[k], query)))
  {
  }

  /**
   * The group `onGroupselect` receives; Enter on an empty list, or past its
   * end, passes `undefined`, written `None`.
   */
  datatype Forward = NoForward | SelectGroup(group: Option<string>)

  class GroupSelector {
    var availableGroups: seq<string>
    var selectedGroups: seq<string>
    var query: string
    var debouncedQuery: string
    var highlightIndex: int

    ghost predicate Valid()
      reads this
    {
      highlightIndex >= 0
    }

    constructor (availableGroups: seq<string>, selectedGroups: seq<string>)
      ensures Valid()
      ensures this.availableGroups == availableGroups && this.selectedGroups == selectedGroups &&
              query == "" && debouncedQuery == "" && highlightIndex == 0
    {
      this.availableGroups := availableGroups;
      this.selectedGroups := selectedGroups;
      query := "";
      debouncedQuery := "";
      highlightIndex := 0;
    }

    function Filtered(): seq<string>
      reads this
    {
      FilteredGroups(availableGroups, debouncedQuery)
    }

    /** Typing in the search box. */
    method Type(text: string)
      modifies this
      ensures query == text
      ensures debouncedQuery == old(debouncedQuery) && highlightIndex == old(highlightIndex)
      ensures availableGroups == old(availableGroups) && selectedGroups == old(selectedGroups)
    {
      query := text;
    }

    /** The debounce timer firing. */
    method Settle()
      modifies this
      ensures debouncedQuery == old(query)
      ensures query == old(query) && highlightIndex == old(highlightIndex)
      ensures availableGroups == old(availableGroups) && selectedGroups == old(selectedGroups)
    {
      debouncedQuery := query;
    }

    /** The pointer entering a listed group. */
    method Hover(index: nat)
      requires index < |Filtered()|
      modifies this
      ensures Valid() && highlightIndex == index
      ensures query == old(query) && debouncedQuery == old(debouncedQuery)
      ensures availableGroups == old(availableGroups) && selectedGroups == old(selectedGroups)
    {
      highlightIndex := index;
    }

    /** `handleSelect`: the search box and highlight are cleared and the group forwarded as it is. */
    method Select(group: Option<string>) returns (forward: Forward)
      modifies this
      ensures Valid()
      ensures forward == SelectGroup(group) && query == "" && highlightIndex == 0
      ensures debouncedQuery == old(debouncedQuery)
      ensures availableGroups == old(availableGroups) && selectedGroups == old(selectedGroups)
    {
      query := "";
      highlightIndex := 0;
      forward := SelectGroup(group);
    }

    /** `handleRemove`: the group goes to `onCourseDeselect`, and the picker's own state stays as it is. */
    method Remove(group: string) returns (deselect: string)
      ensures deselect == group
    {
      deselect := group;
    }

    /**
     * `handleKeyDown`. With an empty query every key but Escape is ignored.
     * The arrows move the highlight within the list; Escape clears the search
     * box and the highlight. Enter selects the highlighted group without
     * checking that there is one: on an empty list, or past the end of one
     * that has since shrunk, it forwards `undefined`.
     */
    method KeyDown(key: Key) returns (forward: Forward)
      requires Valid()
      modifies this
      ensures Valid()
      ensures old(debouncedQuery) == "" && key != Escape ==>
        forward == NoForward && query == old(query) && highlightIndex == old(highlightIndex)
      ensures key == Escape ==> forward == NoForward && query == "" && highlightIndex == 0
      ensures old(debouncedQuery) != "" && key == ArrowDown ==>
        var filtered := FilteredGroups(old(availableGroups), old(debouncedQuery));
        forward == NoForward && query == old(query) &&
        highlightIndex == Down(old(highlightIndex), HasNoMatches(old(debouncedQuery), filtered), |filtered|)
      ensures old(debouncedQuery) != "" && key == ArrowUp ==>
        forward == NoForward && query == old(query) && highlightIndex == Up(old(highlightIndex))
      ensures old(debouncedQuery) != "" && key == Enter ==>
        var filtered := FilteredGroups(old(availableGroups), old(debouncedQuery));
        var h := old(highlightIndex);
        forward == SelectGroup(if h < |filtered| then Some(filtered[h]) else None) &&
        query == "" && highlightIndex == 0
      ensures key == OtherKey ==> forward == NoForward && query == old(query) && highlightIndex == old(highlightIndex)
      ensures debouncedQuery == old(debouncedQuery)
      ensures availableGroups == old(availableGroups) && selectedGroups == old(selectedGroups)
    {
      forward := NoForward;
      if debouncedQuery == "" && key != Escape {
        return;
      }
      var filtered := Filtered();
      var noMatches := HasNoMatches(debouncedQuery, filtered);
      match key
      case ArrowDown =>
        DownSpec(highlightIndex, noMatches, |filtered|);
        highlightIndex := Down(highlightIndex, noMatches, |filtered|);
      case ArrowUp =>
        highlightIndex := Up(highlightIndex);
      case Enter =>
        var target := if highlightIndex < |filtered| then Some(filtered[highlightIndex]) else None;
        forward := Select(target);
        assert forward == SelectGroup(target);
      case Escape =>
        query := "";
        highlightIndex := 0;
      case OtherKey =>
    }
  }
}
