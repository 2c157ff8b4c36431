/** The news grid of script.js: the module-level page state (`news`,
    `isLoading`, `loadError`, `activeCategory`, `query`), the handlers that
    reassign it, and the filter-and-sort rule `render` draws cards from. */
module NewsPage {
  import opened Common
  import opened Seqs
  import opened Text
  import opened Records
  import Server

  /** The text the grid searches: the three fields run together without a
      separator. */
  function ClientHaystack(e: Event): string {
    e.title + e.excerpt + e.content
  }

  predicate ClientMatches(activeCategory: string, query: string, e: Event) {
    && (activeCategory == "all" || e.category == activeCategory)
    && (|query| == 0 || Contains(ToLower(ClientHaystack(e)), query))
  }

  function ClientFilter(activeCategory: string, query: string): Event -> bool {
    e => ClientMatches(activeCategory, query, e)
  }

  /** `news.slice().sort(newest first).filter(...)`: the cards of the grid, in
      order. */
  function VisibleNews(news: seq<Event>, activeCategory: string, query: string, key: string -> int): (r: seq<Event>)
    ensures SortedDesc(r, Server.DateKey(key))
    ensures r == SortDesc(Filter(news, ClientFilter(activeCategory, query)), Server.DateKey(key))
    ensures forall i :: 0 <= i < |r| ==> ClientMatches(activeCategory, query, r[i])
  {
    var sorted := SortDesc(news, Server.DateKey(key));
    FilterSortCommute(news, Server.DateKey(key), ClientFilter(activeCategory, query));
    FilterSorted(sorted, Server.DateKey(key), ClientFilter(activeCategory, query));
    Filter(sorted, ClientFilter(activeCategory, query))
  }

  /** A stored event appears in the grid as often as it is stored when it
      passes both filters, and not at all otherwise. */
  lemma VisibleNewsExact(news: seq<Event>, activeCategory: string, query: string, key: string -> int, e: Event)
    ensures multiset(VisibleNews(news, activeCategory, query, key))[e] ==
            if ClientMatches(activeCategory, query, e) then multiset(news)[e] else 0
  {
    FilterOccurrences(news, ClientFilter(activeCategory, query), e);
  }

  /** The grid's category filter agrees with the server's for every category
      the tabs offer, so filtering a fetched list again on the page keeps
      exactly the events of that category. */
  lemma CategoryFiltersAgree(category: string, e: Event)
    requires category != ""
    ensures (category == "all" || e.category == category) <==> Server.CategoryMatches(Some(category), e)
  {
  }

  /** The two searches differ: a query spanning a field boundary matches on
      the server only, ... */
  lemma ServerOnlyMatch()
    ensures var e := Event(Num(1), "a", "", "", "b", "", "", "", "", [], "", "", [], "", "");
      Server.ServerQueryMatches("a b", e) && !ClientMatches("all", "a b", e)
  {
    var e := Event(Num(1), "a", "", "", "b", "", "", "", "", [], "", "", [], "", "");
    assert ToLower(Server.ServerHaystack(e)) == "a b ";
    assert StartsWith("a b ", "a b");
    assert ToLower(ClientHaystack(e)) == "ab";
    assert !Contains("b", "a b") by {
      assert !Contains("", "a b");
    }
  }

  /** ... and a query running two fields together matches on the page only. */
  lemma ClientOnlyMatch()
    ensures var e := Event(Num(1), "a", "", "", "b", "", "", "", "", [], "", "", [], "", "");
      ClientMatches("all", "ab", e) && !Server.ServerQueryMatches("ab", e)
  {
    var e := Event(Num(1), "a", "", "", "b", "", "", "", "", [], "", "", [], "", "");
    assert ToLower(ClientHaystack(e)) == "ab";
    assert StartsWith("ab", "ab");
    var h := ToLower(Server.ServerHaystack(e));
    assert h == "a b ";
    assert !Contains(" ", "ab") by {
      assert !Contains("", "ab");
    }
    assert !Contains("b ", "ab");
    assert !Contains(" b ", "ab");
  }

  /** What `render` puts in the grid. */
  datatype View = Loading | Failed(message: string) | NoMatches | Cards(items: seq<Event>)

  const LoadErrorMessage := "Unable to load events. Please make sure the backend server is running (npm start)."

  class Page {
    var news: seq<Event>
    var isLoading: bool
    var loadError: Option<string>
    var activeCategory: string
    var query: string

    /** The state before `init` has run. */
    constructor ()
      ensures news == [] && isLoading && loadError == None
      ensures activeCategory == "all" && query == ""
    {
      news := [];
      isLoading := true;
      loadError := None;
      activeCategory := "all";
      query := "";
    }

    /** `render`: a status note while loading or after a failed load, the
        "No events match" note when nothing passes the filters, and the
        cards otherwise. */
    function Render(key: string -> int): (v: View)
      reads this
      ensures isLoading ==> v == Loading
      ensures !isLoading && loadError.Some? ==> v == Failed(loadError.value)
      ensures v.NoMatches? <==> !isLoading && loadError.None? && VisibleNews(news, activeCategory, query, key) == []
      ensures v.Cards? ==> v.items != [] && v.items == VisibleNews(news, activeCategory, query, key)
    {
      if isLoading then Loading
      else if loadError.Some? then Failed(loadError.value)
      else
        var list := VisibleNews(news, activeCategory, query, key);
        if list == [] then NoMatches else Cards(list)
    }

    /** `init`: the fetched list replaces `news` and clears the error, a failed
        fetch sets the error and keeps `news`; either way loading is over. */
    method Init(fetched: Option<seq<Event>>)
      modifies this
      ensures !isLoading
      ensures fetched.Some? ==> news == fetched.value && loadError == None
      ensures fetched.None? ==> news == old(news) && loadError == Some(LoadErrorMessage)
      ensures activeCategory == old(activeCategory) && query == old(query)
    {
      if fetched.Some? {
        news := fetched.value;
        loadError := None;
      } else {
        loadError := Some(LoadErrorMessage);
      }
      isLoading := false;
    }

    /** The search box handler: the stored query is the input trimmed and
        lower-cased. */
    method SetQuery(input: string)
      modifies this
      ensures query == ToLower(Trim(input))
      ensures news == old(news) && isLoading == old(isLoading) && loadError == old(loadError)
      ensures activeCategory == old(activeCategory)
    {
      query := ToLower(Trim(input));
    }

    /** A filter button or category tab click. */
    method SelectCategory(category: string)
      modifies this
      ensures activeCategory == category
      ensures news == old(news) && isLoading == old(isLoading) && loadError == old(loadError)
      ensures query == old(query)
    {
      activeCategory := category;
    }
  }

  /** The stored query is already normalised: trimming and lower-casing it
      again changes nothing. */
  lemma QueryNormalised(input: string)
    ensures var q := ToLower(Trim(input)); ToLower(Trim(q)) == q
  {
    TrimIdempotent(input);
    LowerKeepsTrimmed(Trim(input));
    ToLowerIdempotent(Trim(input));
  }
}
