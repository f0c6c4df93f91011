/**
  The SearchItem servlet's GET handler: refuse a request without a session,
  otherwise search with the default keyword, load the user's favorite item
  ids once, and answer every item in search order with its favorite flag.
 */
module SearchItem {
  import opened Wrappers
  import opened Postings
  import opened Items
  import opened Collaborators
  import opened GitHubClient

  const FORBIDDEN := 403

  /** One element of the answer: the item's own JSON plus "favorite". */
  datatype Entry = Entry(item: Item, favorite: bool)

  /** What doGet reads of the request: whether a session exists, and the
      user_id parameter (null when absent). */
  datatype Request = Request(hasSession: bool, userId: Option<string>)

  /** What doGet does with the response: set a bare status, write a JSON
      array, or let a search exception escape to the container. */
  datatype Reply =
    | Status(code: int)
    | ItemArray(entries: seq<Entry>)
    | Escaped(fault: Fault)

  /** entries[i] is item i, unchanged, flagged by membership of its id. */
  ghost predicate EnrichedFrom(entries: seq<Entry>, items: seq<Item>, favoriteIds: set<string>)
  {
    && |entries| == |items|
    && forall i :: 0 <= i < |items| ==>
         entries[i].item == items[i] && (entries[i].favorite <==> items[i].itemId in favoriteIds)
  }

  /** The loop of doGet over the search result. */
  method Enrich(items: seq<Item>, favoriteIds: set<string>) returns (entries: seq<Entry>)
    ensures EnrichedFrom(entries, items, favoriteIds)
  {
    entries := [];
    for i := 0 to |items|
      invariant EnrichedFrom(entries, items[..i], favoriteIds)
    {
      var item := items[i];
      entries := entries + [Entry(item, item.itemId in favoriteIds)];
    }
  }

  ghost function ItemIds(items: seq<Item>): set<string>
  {
    set i | 0 <= i < |items| :: items[i].itemId
  }

  ghost function FlaggedIds(entries: seq<Entry>): set<string>
  {
    set i | 0 <= i < |entries| && entries[i].favorite :: entries[i].item.itemId
  }

  /** Across the whole answer, the ids flagged favorite are exactly the
      favorite ids that occur among the items: no favorite is missed and
      none is invented. */
  lemma FlaggedIdsAreFavoritesAmongItems(entries: seq<Entry>, items: seq<Item>, favoriteIds: set<string>)
    requires EnrichedFrom(entries, items, favoriteIds)
    ensures FlaggedIds(entries) == favoriteIds * ItemIds(items)
  {
  }

  /** doGet, with the job board, the extraction service and the favorites
      store as parameters, returning the reply and the calls it made. */
  method DoGet(req: Request, fetch: JobSource, extract: Extractor, favoritesOf: FavoritesStore)
    returns (reply: Reply, calls: seq<Call>)
    ensures !req.hasSession <==> reply == Status(FORBIDDEN)
    ensures !req.hasSession ==> calls == []
    ensures req.hasSession ==> |calls| >= 1 && calls[0] == FetchJobs(DEFAULT_KEYWORD)
    ensures reply.Escaped? ==> forall j :: 0 <= j < |calls| ==> !calls[j].LoadFavorites?
    ensures reply.ItemArray? ==>
              && calls[|calls| - 1] == LoadFavorites(req.userId)
              && forall j :: 0 <= j < |calls| - 1 ==> !calls[j].LoadFavorites?
    ensures req.hasSession && !Delivers(fetch(DEFAULT_KEYWORD)) ==>
              if fetch(DEFAULT_KEYWORD) == Reply(STATUS_OK, Some(Malformed))
              then reply == Escaped(MalformedJson) && calls == [FetchJobs(DEFAULT_KEYWORD)]
              else reply == ItemArray([]) && calls == [FetchJobs(DEFAULT_KEYWORD), LoadFavorites(req.userId)]
    ensures req.hasSession && Delivers(fetch(DEFAULT_KEYWORD)) ==>
              var postings := fetch(DEFAULT_KEYWORD).entity.value.postings;
              && |calls| >= 2
              && calls[1].ExtractKeywords?
              && (reply.Escaped? ==> |calls| == 2)
              && (reply.ItemArray? ==> |calls| == 3)
              && SelectsTexts(postings, calls[1].texts)
              && (reply == Escaped(KeywordIndexOutOfBounds) <==> |extract(calls[1].texts)| < |postings|)
              && (reply.ItemArray? <==> |postings| <= |extract(calls[1].texts)|)
              && (reply.ItemArray? ==>
                    var keywords := extract(calls[1].texts);
                    && |reply.entries| == |postings|
                    && forall i :: 0 <= i < |postings| ==>
                         && ItemFromPosting(reply.entries[i].item, postings[i], keywords[i])
                         && (reply.entries[i].favorite <==> FieldOrEmpty(postings[i], ID) in favoritesOf(req.userId)))
  {
    if !req.hasSession {
      return Status(FORBIDDEN), [];
    }
    var found;
    found, calls := Search(None, fetch, extract);
    assert calls[0].keyword == DEFAULT_KEYWORD;
    assert forall j :: 0 <= j < |calls| ==> !calls[j].LoadFavorites? by {
      if Delivers(fetch(DEFAULT_KEYWORD)) {
        assert calls == [calls[0], calls[1]] && calls[1].ExtractKeywords?;
      } else {
        assert |calls| == 1;
      }
    }
    if found.Thrown? {
      return Escaped(found.fault), calls;
    }
    var favoriteIds := favoritesOf(req.userId);
    calls := calls + [LoadFavorites(req.userId)];
    var entries := Enrich(found.value, favoriteIds);
    reply := ItemArray(entries);
  }
}
