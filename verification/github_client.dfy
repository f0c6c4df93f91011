/**
  GitHubClient: fetch postings from the job board, choose the text of each
  posting, extract keywords for all texts in one call, and build one Item per
  posting.
 */
module GitHubClient {
  import opened Wrappers
  import opened Postings
  import opened Items
  import opened Collaborators

  const DEFAULT_KEYWORD := "developer"
  const STATUS_OK := 200

  /** A runtime exception that escapes `search` instead of being turned into
      an empty list. */
  datatype Fault =
    | MalformedJson            // org.json rejects the body
    | KeywordIndexOutOfBounds  // the extraction result is shorter than the postings

  datatype Outcome<+T> = Done(value: T) | Thrown(fault: Fault)

  /** texts[i] is the text chosen for posting i. */
  ghost predicate SelectsTexts(postings: seq<Posting>, texts: seq<string>)
  {
    && |texts| == |postings|
    && forall i :: 0 <= i < |postings| ==> texts[i] == SelectText(postings[i])
  }

  /** items[i] is built from posting i and keyword list i, for every i. */
  ghost predicate AssembledFrom(items: seq<Item>, postings: seq<Posting>, keywords: seq<seq<string>>)
  {
    && |items| == |postings| <= |keywords|
    && forall i :: 0 <= i < |postings| ==> ItemFromPosting(items[i], postings[i], keywords[i])
  }

  /** The first loop of getItemList: one extraction text per posting, in
      posting order. */
  method ExtractionTexts(postings: seq<Posting>) returns (texts: seq<string>)
    ensures SelectsTexts(postings, texts)
  {
    texts := [];
    var i := 0;
    while i < |postings|
      invariant i <= |postings|
      invariant SelectsTexts(postings[..i], texts)
    {
      var description := FieldOrEmpty(postings[i], DESCRIPTION);
      if IsEmptyOrNewline(description) {
        texts := texts + [FieldOrEmpty(postings[i], TITLE)];
      } else {
        texts := texts + [description];
      }
      i := i + 1;
    }
  }

  /** The second loop of getItemList: zip posting i with keyword list i.
      `keywords.get(i)` throws once i passes the end of the extraction
      result, and the partial list is lost with the exception. */
  method AssembleItems(postings: seq<Posting>, keywords: seq<seq<string>>) returns (r: Outcome<seq<Item>>)
    ensures r.Thrown? <==> |keywords| < |postings|
    ensures r.Thrown? ==> r.fault == KeywordIndexOutOfBounds
    ensures r.Done? ==> AssembledFrom(r.value, postings, keywords)
  {
    var items := [];
    var i := 0;
    while i < |postings|
      invariant i <= |postings|
      invariant i <= |keywords|
      invariant |items| == i
      invariant forall j :: 0 <= j < i ==> ItemFromPosting(items[j], postings[j], keywords[j])
    {
      if i >= |keywords| {
        return Thrown(KeywordIndexOutOfBounds);
      }
      items := items + [MakeItem(postings[i], keywords[i])];
      i := i + 1;
    }
    r := Done(items);
  }

  /** getItemList: extraction is called exactly once, with the texts of all
      postings in order, and its answer is zipped with the postings. */
  method GetItemList(postings: seq<Posting>, extract: Extractor) returns (r: Outcome<seq<Item>>, calls: seq<Call>)
    ensures |calls| == 1 && calls[0].ExtractKeywords?
    ensures SelectsTexts(postings, calls[0].texts)
    ensures r.Thrown? <==> |extract(calls[0].texts)| < |postings|
    ensures r.Thrown? ==> r.fault == KeywordIndexOutOfBounds
    ensures r.Done? ==> AssembledFrom(r.value, postings, extract(calls[0].texts))
  {
    var texts := ExtractionTexts(postings);
    calls := [ExtractKeywords(texts)];
    var keywords := extract(texts);
    r := AssembleItems(postings, keywords);
  }

  /** The response carries a fully read JSON array of postings. */
  predicate Delivers(resp: Response)
  {
    resp.Reply? && resp.status == STATUS_OK && resp.entity.Some? && resp.entity.value.JsonArray?
  }

  /** search: query the job board with the keyword, or with "developer" when
      the keyword is null; a failed request, a status other than 200, a null
      entity or an unreadable stream yield no items; an unparsable body
      escapes as an exception; a JSON array goes through getItemList. */
  method Search(keyword: Option<string>, fetch: JobSource, extract: Extractor)
    returns (r: Outcome<seq<Item>>, calls: seq<Call>)
    ensures keyword.None? ==> |calls| >= 1 && calls[0] == FetchJobs(DEFAULT_KEYWORD)
    ensures keyword.Some? ==> |calls| >= 1 && calls[0] == FetchJobs(keyword.value)
    ensures fetch(calls[0].keyword).Failed? ==> r == Done([]) && |calls| == 1
    ensures fetch(calls[0].keyword).Reply? && fetch(calls[0].keyword).status != STATUS_OK ==>
              r == Done([]) && |calls| == 1
    ensures fetch(calls[0].keyword) == Reply(STATUS_OK, None) ==> r == Done([]) && |calls| == 1
    ensures fetch(calls[0].keyword) == Reply(STATUS_OK, Some(ReadFailure)) ==> r == Done([]) && |calls| == 1
    ensures fetch(calls[0].keyword) == Reply(STATUS_OK, Some(Malformed)) ==>
              r == Thrown(MalformedJson) && |calls| == 1
    ensures !Delivers(fetch(calls[0].keyword)) && fetch(calls[0].keyword) != Reply(STATUS_OK, Some(Malformed)) ==>
              r == Done([]) && |calls| == 1
    ensures Delivers(fetch(calls[0].keyword)) ==>
              var postings := fetch(calls[0].keyword).entity.value.postings;
              && |calls| == 2
              && calls[1].ExtractKeywords?
              && SelectsTexts(postings, calls[1].texts)
              && (r.Thrown? <==> |extract(calls[1].texts)| < |postings|)
              && (r.Thrown? ==> r.fault == KeywordIndexOutOfBounds)
              && (r.Done? ==> AssembledFrom(r.value, postings, extract(calls[1].texts)))
  {
    var query := if keyword.None? then DEFAULT_KEYWORD else keyword.value;
    calls := [FetchJobs(query)];
    var resp := fetch(query);
    match resp
    case Failed(_) =>
      r := Done([]);
    case Reply(status, entity) =>
      if status != STATUS_OK {
        r := Done([]);
      } else if entity.None? {
        r := Done([]);
      } else {
        match entity.value
        case ReadFailure =>
          r := Done([]);
        case Malformed =>
          r := Thrown(MalformedJson);
        case JsonArray(postings) =>
          var more;
          r, more := GetItemList(postings, extract);
          calls := calls + more;
      }
  }
}
