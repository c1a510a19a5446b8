/**
 * The skill-tag picker: a search box over the tags on offer, a dropdown of
 * the unselected tags whose name contains the (debounced) query, keyboard
 * navigation, and optimistic selection and removal that roll back when the
 * server refuses.
 */
module SkillTagSelector {
  import opened Wrappers
  import opened Strings
  import Lists
  import opened Highlight
  import opened ClientProjects

  /** Some selected tag carries this id. */
  predicate IsSelected(selected: seq<SkillTag>, id: string) {
    exists k :: 0 <= k < |selected| && selected[k].id == id
  }

  /** A tag is listed when its name contains the query, ignoring case, and it is not selected. */
  function Listed(selected: seq<SkillTag>, query: string): SkillTag -> bool {
    (t: SkillTag) => Contains(ToLower(t.name), ToLower(query)) && !IsSelected(selected, t.id)
  }

  /** `filteredTags`. */
  function FilteredTags(available: seq<SkillTag>, selected: seq<SkillTag>, query: string): seq<SkillTag> {
    Lists.Filter(available, Listed(selected, query))
  }

  /** `hasNoMatches`: a non-empty query that lists nothing. */
  predicate HasNoMatches(query: string, filtered: seq<SkillTag>) {
    query != "" && |filtered| == 0
  }

  /**
   * The tags listed are exactly the offered tags whose name contains the
   * query ignoring case and that are not selected, in the order offered; with
   * an empty query every unselected tag is listed.
   */
  lemma FilteredTagsSpec(available: seq<SkillTag>, more: seq<SkillTag>, selected: seq<SkillTag>, query: string, t: SkillTag)
    ensures t in FilteredTags(available, selected, query) <==>
      t in available && Contains(ToLower(t.name), ToLower(query)) && !IsSelected(selected, t.id)
    ensures query == "" ==> (t in FilteredTags(available, selected, query) <==> t in available && !IsSelected(selected, t.id))
    ensures FilteredTags(available + more, selected, query) ==
      FilteredTags(available, selected, query) + FilteredTags(more, selected, query)
  {
    Lists.FilterMembers(available, Listed(selected, query), t);
    Lists.FilterConcat(available, more, Listed(selected, query));
    if query == "" {
      assert ToLower(query) == "";
      assert OccursAt(ToLower(t.name), "", 0);
    }
  }

  /** What the dropdown under the search box shows. */
  datatype TagDropdown =
    | Closed
    | Options(tags: seq<SkillTag>)
    | CreateOption(name: string)
    | AlreadySelected(name: string)

  function Dropdown(available: seq<SkillTag>, selected: seq<SkillTag>, query: string): TagDropdown {
    var filtered := FilteredTags(available, selected, query);
    if query == "" then Closed
    else if |filtered| > 0 then Options(filtered)
    else if !(exists k :: 0 <= k < |selected| && EqualsIgnoreCase(selected[k].name, query)) then CreateOption(query)
    else AlreadySelected(query)
  }

  /**
   * The dropdown is closed exactly for an empty query and lists the matches
   * when there are any. With no matches it offers to create the query as a
   * tag, unless a selected tag has that name ignoring case, and then it says
   * the tag is already selected.
   */
  lemma DropdownSpec(available: seq<SkillTag>, selected: seq<SkillTag>, query: string)
    ensures var d := Dropdown(available, selected, query);
      var filtered := FilteredTags(available, selected, query);
      (d.Closed? <==> query == "") &&
      (d.Options? <==> query != "" && |filtered| > 0) &&
      (d.Options? ==> d.tags == filtered) &&
      (HasNoMatches(query, filtered) ==>
         (d.AlreadySelected? <==> exists k :: 0 <= k < |selected| && EqualsIgnoreCase(selected[k].name, query)) &&
         (d.CreateOption? <==> !exists k :: 0 <= k < |selected| && EqualsIgnoreCase(selected[k].name, query)) &&
         (d.CreateOption? ==> d.name == query))
  {
  }

  /** What a key press asks the page to do. */
  datatype TagRequest =
    | NoRequest
    | CreateTag(name: string)  // `onCreateTag` with the trimmed query
    | SelectTag(tag: SkillTag)  // `onTagSelect`, after the optimistic update
    | SelectUndefined          // Enter on a highlight past the end of the list

  class TagSelector {
    var availableTags: seq<SkillTag>
    var query: string
    var debouncedQuery: string
    var selected: seq<SkillTag>
    var highlightIndex: int
    var loadingTags: set<string>

    ghost predicate Valid()
      reads this
    {
      highlightIndex >= 0
    }

    /** A fresh picker: nothing typed, nothing selected, nothing loading. */
    constructor (availableTags: seq<SkillTag>)
      ensures Valid()
      ensures this.availableTags == availableTags && query == "" && debouncedQuery == "" &&
              selected == [] && highlightIndex == 0 && loadingTags == {}
    {
      this.availableTags := availableTags;
      query := "";
      debouncedQuery := "";
      selected := [];
      highlightIndex := 0;
      loadingTags := {};
    }

    function Filtered(): seq<SkillTag>
      reads this
    {
      FilteredTags(availableTags, selected, debouncedQuery)
    }

    /** Typing in the search box. */
    method Type(text: string)
      modifies this
      ensures query == text
      ensures availableTags == old(availableTags) && debouncedQuery == old(debouncedQuery) && selected == old(selected) &&
              highlightIndex == old(highlightIndex) && loadingTags == old(loadingTags)
    {
      query := text;
    }

    /** The debounce timer firing: the filter catches up with the search box. */
    method Settle()
      modifies this
      ensures debouncedQuery == old(query)
      ensures availableTags == old(availableTags) && query == old(query) && selected == old(selected) &&
              highlightIndex == old(highlightIndex) && loadingTags == old(loadingTags)
    {
      debouncedQuery := query;
    }

    /** The pointer entering a dropdown entry: a listed tag, or the single create entry. */
    method Hover(index: nat)
      requires index < |Filtered()| || index == 0
      modifies this
      ensures Valid() && highlightIndex == index
      ensures availableTags == old(availableTags) && query == old(query) && debouncedQuery == old(debouncedQuery) &&
              selected == old(selected) && loadingTags == old(loadingTags)
    {
      highlightIndex := index;
    }

    /**
     * `handleSelect` up to its await: the tag is appended to the selection
     * at once, the search box is cleared, and the tag's id is marked loading.
     */
    method BeginSelect(tag: SkillTag)
      modifies this
      ensures Valid()
      ensures selected == old(selected) + [tag] && query == "" && highlightIndex == 0 &&
              loadingTags == old(loadingTags) + {tag.id}
      ensures availableTags == old(availableTags) && debouncedQuery == old(debouncedQuery)
    {
      selected := selected + [tag];
      query := "";
      highlightIndex := 0;
      loadingTags := loadingTags + {tag.id};
    }

    /** `handleSelect` after its await: the id stops loading, and on failure every entry with it is dropped. */
    method EndSelect(tag: SkillTag, success: bool)
      requires Valid()
      modifies this
      ensures Valid()
      ensures loadingTags == old(loadingTags) - {tag.id}
      ensures selected == if success then old(selected) else Lists.RemoveById(old(selected), TagId, tag.id)
      ensures availableTags == old(availableTags) && query == old(query) && debouncedQuery == old(debouncedQuery) &&
              highlightIndex == old(highlightIndex)
    {
      loadingTags := loadingTags - {tag.id};
      if !success {
        selected := Lists.RemoveById(selected, TagId, tag.id);
      }
    }

    /** `handleRemove` up to its await: every entry with the tag's id leaves the selection, and the id is marked loading. */
    method BeginRemove(tag: SkillTag)
      requires Valid()
      modifies this
      ensures Valid()
      ensures selected == Lists.RemoveById(old(selected), TagId, tag.id) && loadingTags == old(loadingTags) + {tag.id}
      ensures availableTags == old(availableTags) && query == old(query) && debouncedQuery == old(debouncedQuery) &&
              highlightIndex == old(highlightIndex)
    {
      selected := Lists.RemoveById(selected, TagId, tag.id);
      loadingTags := loadingTags + {tag.id};
    }

    /** `handleRemove` after its await: the id stops loading, and on failure the tag is appended again. */
    method EndRemove(tag: SkillTag, success: bool)
      requires Valid()
      modifies this
      ensures Valid()
      ensures loadingTags == old(loadingTags) - {tag.id}
      ensures selected == if success then old(selected) else old(selected) + [tag]
      ensures availableTags == old(availableTags) && query == old(query) && debouncedQuery == old(debouncedQuery) &&
              highlightIndex == old(highlightIndex)
    {
      loadingTags := loadingTags - {tag.id};
      if !success {
        selected := selected + [tag];
      }
    }

    /**
     * `handleSelect` with no other handler running during its await: on
     * success the tag ends up appended; on failure a tag that was not
     * selected leaves the selection as it was. Either way its id is no
     * longer loading.
     */
    method Select(tag: SkillTag, success: bool)
      requires Valid()
      modifies this
      ensures Valid()
      ensures loadingTags == old(loadingTags) - {tag.id}
      ensures success ==> selected == old(selected) + [tag]
      ensures !success ==> selected == Lists.RemoveById(old(selected) + [tag], TagId, tag.id)
      ensures !success && !IsSelected(old(selected), tag.id) ==> selected == old(selected)
      ensures query == "" && highlightIndex == 0
      ensures availableTags == old(availableTags) && debouncedQuery == old(debouncedQuery)
    {
      ghost var before := selected;
      BeginSelect(tag);
      EndSelect(tag, success);
      if !success && !IsSelected(before, tag.id) {
        Lists.AppendThenRemove(before, tag, TagId);
      }
    }

    /**
     * `handleRemove` with no other handler running during its await: on
     * success the tag's id is gone from the selection; on failure a tag
     * selected once comes back at the end, the same tags in another order.
     */
    method Remove(tag: SkillTag, success: bool)
      requires Valid()
      modifies this
      ensures Valid()
      ensures loadingTags == old(loadingTags) - {tag.id}
      ensures success ==> selected == Lists.RemoveById(old(selected), TagId, tag.id)
      ensures !success ==> selected == Lists.RemoveById(old(selected), TagId, tag.id) + [tag]
      ensures success ==> !IsSelected(selected, tag.id)
      ensures !success && (exists i :: 0 <= i < |old(selected)| && old(selected)[i] == tag &&
                            forall k :: 0 <= k < |old(selected)| && k != i ==> old(selected)[k].id != tag.id) ==>
        multiset(selected) == multiset(old(selected))
      ensures availableTags == old(availableTags) && query == old(query) &&
              debouncedQuery == old(debouncedQuery) && highlightIndex == old(highlightIndex)
    {
      ghost var before := selected;
      BeginRemove(tag);
      EndRemove(tag, success);
      if success {
        Lists.RemoveByIdDrops(before, TagId, tag.id);
      }
      if !success && exists i :: 0 <= i < |before| && before[i] == tag &&
                      forall k :: 0 <= k < |before| && k != i ==> before[k].id != tag.id {
        var i :| 0 <= i < |before| && before[i] == tag &&
                 forall k :: 0 <= k < |before| && k != i ==> before[k].id != tag.id;
        Lists.RemoveThenAppend(before, i, TagId);
      }
    }

    /**
     * `handleCreate` up to its await: the trimmed query is the name to
     * create, and a query that is only white space creates nothing.
     */
    method CreateName() returns (name: Option<string>)
      ensures name == TrimmedNonBlank(debouncedQuery)
    {
      name := TrimmedNonBlank(debouncedQuery);
    }

    /** `handleCreate` after its await: a created tag is selected, and the search box cleared. */
    method EndCreate(created: Option<SkillTag>)
      requires Valid()
      modifies this
      ensures Valid()
      ensures created.None? ==> selected == old(selected) && loadingTags == old(loadingTags) &&
                                query == old(query) && highlightIndex == old(highlightIndex)
      ensures created.Some? ==> selected == old(selected) + [created.value] && query == "" && highlightIndex == 0 &&
                                loadingTags == old(loadingTags) + {created.value.id}
      ensures availableTags == old(availableTags) && debouncedQuery == old(debouncedQuery)
    {
      if created.Some? {
        BeginSelect(created.value);
        query := "";
        highlightIndex := 0;
      }
    }

    /**
     * `handleKeyDown`. With an empty query every key but Escape is ignored.
     * The arrows move the highlight within the list; Escape clears the search
     * box and the highlight. Enter asks for the trimmed query to be created
     * when nothing matches, and otherwise selects the highlighted tag, unless
     * the highlight lies past the end of a list that has since shrunk.
     */
    method KeyDown(key: Key) returns (request: TagRequest)
      requires Valid()
      modifies this
      ensures Valid()
      ensures var filtered := FilteredTags(old(availableTags), old(selected), old(debouncedQuery));
        var h := old(highlightIndex);
        var noMatches := HasNoMatches(old(debouncedQuery), filtered);
        var selecting := old(debouncedQuery) != "" && key == Enter && !noMatches && h < |filtered|;
        var clearing := key == Escape || selecting;
        (request == if selecting then SelectTag(filtered[h])
                    else if old(debouncedQuery) == "" || key != Enter then NoRequest
                    else if noMatches then
                      (match TrimmedNonBlank(old(debouncedQuery)) case Some(name) => CreateTag(name) case None => NoRequest)
                    else SelectUndefined) &&
        (highlightIndex == if clearing then 0
                           else if old(debouncedQuery) == "" then h
                           else if key == ArrowDown then Down(h, noMatches, |filtered|)
                           else if key == ArrowUp then Up(h)
                           else h) &&
        (query == if clearing then "" else old(query)) &&
        (selected == if selecting then old(selected) + [filtered[h]] else old(selected)) &&
        (loadingTags == if selecting then old(loadingTags) + {filtered[h].id} else old(loadingTags))
      ensures availableTags == old(availableTags) && debouncedQuery == old(debouncedQuery)
    {
      request := NoRequest;
      if debouncedQuery == "" && key != Escape {
        return;
      }
      var filtered := Filtered();
      var noMatches := HasNoMatches(debouncedQuery, filtered);
      match key
      case ArrowDown =>
        DownSpec(highlightIndex, noMatches, |filtered|);
        highlightIndex := Down(highlightIndex, noMatches, |filtered|);
      case ArrowUp =>
        highlightIndex := Up(highlightIndex);
      case Enter =>
        if noMatches {
          var name := CreateName();
          if name.Some? {
            request := CreateTag(name.value);
          }
        } else if highlightIndex < |filtered| {
          var tag := filtered[highlightIndex];
          BeginSelect(tag);
          request := SelectTag(tag);
        } else {
          request := SelectUndefined;
        }
      case Escape =>
        query := "";
        highlightIndex := 0;
      case OtherKey =>
    }
  }
}
