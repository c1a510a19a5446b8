/**
 * The keyword box: free text, forwarded as a keyword on Enter or by clicking
 * the add entry, with a notice when the keyword is already selected.
 */
module KeywordSelector {
  import opened Wrappers
  import opened Strings
  import opened Highlight

  /** Some selected keyword equals the query, ignoring case. */
  predicate AlreadySelected(selected: seq<string>, query: string) {
    exists k :: 0 <= k < |selected| && EqualsIgnoreCase(selected[k], query)
  }

  /** What the dropdown under the box shows. */
  datatype KeywordDropdown = Closed | SelectedNotice(keyword: string) | AddOption(keyword: string)

  function Dropdown(selected: seq<string>, query: string): KeywordDropdown {
    if query == "" then Closed
    else if AlreadySelected(selected, query) then SelectedNotice(query)
    else AddOption(query)
  }

  /**
   * The dropdown is closed exactly for an empty query; otherwise it shows the
   * notice exactly when a selected keyword equals the query ignoring case,
   * and the add entry, carrying the query as typed, otherwise.
   */
  lemma DropdownSpec(selected: seq<string>, query: string)
    ensures var d := Dropdown(selected, query);
      (d.Closed? <==> query == "") &&
      (query != "" ==> (d.SelectedNotice? <==> AlreadySelected(selected, query))) &&
      (d.AddOption? ==> d.keyword == query && !AlreadySelected(selected, query))
  {
  }

  class KeywordInput {
    var selectedKeywords: seq<string>
    var query: string
    var debouncedQuery: string

    constructor (selectedKeywords: seq<string>)
      ensures this.selectedKeywords == selectedKeywords && query == "" && debouncedQuery == ""
    {
      this.selectedKeywords := selectedKeywords;
      query := "";
      debouncedQuery := "";
    }

    /** Typing in the box. */
    method Type(text: string)
      modifies this
      ensures query == text && debouncedQuery == old(debouncedQuery) && selectedKeywords == old(selectedKeywords)
    {
      query := text;
    }

    /** The debounce timer firing. */
    method Settle()
      modifies this
      ensures debouncedQuery == old(query) && query == old(query) && selectedKeywords == old(selectedKeywords)
    {
      debouncedQuery := query;
    }

    /** `handleSelect`: the box is cleared and the keyword forwarded to `onKeywordSelect` unchanged. */
    method Select(keyword: string) returns (forwarded: string)
      modifies this
      ensures forwarded == keyword && query == ""
      ensures debouncedQuery == old(debouncedQuery) && selectedKeywords == old(selectedKeywords)
    {
      query := "";
      forwarded := keyword;
    }

    /** `handleRemove`: the keyword goes to `onKeywordDeselect`; the box stays as it is. */
    method Remove(keyword: string) returns (deselect: string)
      ensures deselect == keyword
    {
      deselect := keyword;
    }

    /** Clicking the add entry, shown only for a query not already selected: the query is forwarded as typed, untrimmed. */
    method ClickAdd() returns (forwarded: string)
      requires Dropdown(selectedKeywords, debouncedQuery).AddOption?
      modifies this
      ensures forwarded == old(debouncedQuery) && query == ""
      ensures debouncedQuery == old(debouncedQuery) && selectedKeywords == old(selectedKeywords)
    {
      forwarded := Select(debouncedQuery);
    }

    /**
     * `handleKeyDown`. With an empty query every key but Escape is ignored.
     * Enter forwards the trimmed query and clears the box, unless the query
     * is only white space, and then it does nothing; unlike the dropdown it
     * does not check whether the keyword is already selected. Escape clears
     * the box.
     */
    method KeyDown(key: Key) returns (forwarded: Option<string>)
      modifies this
      ensures var dq := old(debouncedQuery);
        var enter := dq != "" && key == Enter && TrimmedNonBlank(dq).Some?;
        (forwarded == if enter then TrimmedNonBlank(dq) else None) &&
        (query == if enter || key == Escape then "" else old(query))
      ensures debouncedQuery == old(debouncedQuery) && selectedKeywords == old(selectedKeywords)
    {
      forwarded := None;
      if debouncedQuery == "" && key != Escape {
        return;
      }
      if key == Enter {
        var entered := TrimmedNonBlank(debouncedQuery);
        if entered.Some? {
          var keyword := Select(entered.value);
          forwarded := Some(keyword);
        }
      } else if key == Escape {
        query := "";
      }
    }
  }
}
