/**
  The Item entity GitHubClient builds from one posting and its extracted
  keywords, and the de-duplication of keywords into a set.
 */
module Items {
  import opened Postings

  datatype Item = Item(
    itemId: string,
    name: string,
    address: string,
    url: string,
    imageUrl: string,
    keywords: set<string>)

  /** `new HashSet<String>(list)`: the distinct keywords of one extraction
      result. */
  function KeywordSet(kws: seq<string>): (s: set<string>)
    ensures forall k :: k in s <==> k in kws
    ensures |s| <= |kws|
  {
    if kws == [] then {} else {kws[0]} + KeywordSet(kws[1..])
  }

  predicate Distinct(kws: seq<string>)
  {
    forall i, j :: 0 <= i < j < |kws| ==> kws[i] != kws[j]
  }

  /** A non-empty list is distinct iff its head does not recur in its tail
      and its tail is distinct. */
  lemma DistinctUnfolds(kws: seq<string>)
    requires kws != []
    ensures Distinct(kws) <==> kws[0] !in kws[1..] && Distinct(kws[1..])
  {
  }

  /** The set is exactly as large as the list when, and only when, the list
      repeats no keyword: duplicates are what the set drops. */
  lemma {:induction false} KeywordSetKeepsSizeIffDistinct(kws: seq<string>)
    ensures |KeywordSet(kws)| == |kws| <==> Distinct(kws)
  {
    if kws != [] {
      var x, rest := kws[0], kws[1..];
      assert KeywordSet(kws) == {x} + KeywordSet(rest);
      DistinctUnfolds(kws);
      if x in rest {
        assert KeywordSet(kws) == KeywordSet(rest);
      } else {
        KeywordSetKeepsSizeIffDistinct(rest);
        assert |KeywordSet(kws)| == |KeywordSet(rest)| + 1;
      }
    }
  }

  /** The keyword list ["go", "go", "java"] yields a two-element set. */
  lemma RepeatedKeywordCollapses()
    ensures KeywordSet(["go", "go", "java"]) == {"go", "java"}
    ensures |KeywordSet(["go", "go", "java"])| == 2
  {
  }

  /** What item i of the result is, field by field, in terms of posting i
      and keyword list i. */
  ghost predicate ItemFromPosting(it: Item, p: Posting, kws: seq<string>)
  {
    && it.itemId == FieldOrEmpty(p, ID)
    && it.name == FieldOrEmpty(p, TITLE)
    && it.address == FieldOrEmpty(p, LOCATION)
    && it.url == FieldOrEmpty(p, URL)
    && it.imageUrl == FieldOrEmpty(p, COMPANY_LOGO)
    && (forall k :: k in it.keywords <==> k in kws)
  }

  /** The ItemBuilder sequence of getItemList's second loop, for one posting. */
  function MakeItem(p: Posting, kws: seq<string>): (it: Item)
    ensures ItemFromPosting(it, p, kws)
    ensures |it.keywords| <= |kws|
  {
    Item(
      itemId := FieldOrEmpty(p, ID),
      name := FieldOrEmpty(p, TITLE),
      address := FieldOrEmpty(p, LOCATION),
      url := FieldOrEmpty(p, URL),
      imageUrl := FieldOrEmpty(p, COMPANY_LOGO),
      keywords := KeywordSet(kws))
  }
}
