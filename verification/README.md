# Job search pipeline of the jupiter servlet, in Dafny

This project models the pure logic of the jupiter job-search endpoint. It covers two
classes. `GitHubClient` queries the GitHub Jobs feed, chooses one text per posting,
sends all texts to the MonkeyLearn keyword extractor in one call, and builds one
`Item` per posting. The `SearchItem` servlet refuses a request without a session.
Otherwise it searches with the default keyword, loads the user's favorite item ids,
and answers every item in feed order with a `favorite` flag.

Modules, one per concept:

- `Wrappers`: `Option`, standing in for Java's nullable references.
- `Postings`: a posting as a map from field name to an optional string (a missing key
  is absent from the map; JSON null is `None`), `getStringFieldOrEmpty`, and the
  description/title text-selection rule.
- `Items`: the `Item` record, keyword de-duplication into a set, and building one item.
- `Collaborators`: the job board, the extractor and the favorites store, as
  function-typed parameters. Also the log of calls (`Call`) the pipeline makes to them.
- `GitHubClient`: `ExtractionTexts` and `AssembleItems` (the two loops of
  `getItemList`), `GetItemList` and `Search`.
- `SearchItem`: `Enrich` (the favorite-flag loop) and `DoGet`.

The external services are parameters, so each pipeline method also returns the list of
calls it made. That makes these properties plain postconditions: "extraction is called
exactly once", "no external call without a session", and "search runs with a null
keyword".

Behaviours of the code that the model keeps as they are:

- An unparsable body is not caught. org.json's `JSONException` is a runtime
  exception, and `search` catches only the client-protocol and I/O exceptions, so it
  escapes. The model returns `Thrown(MalformedJson)`.
- Only a null keyword is defaulted to "developer". `Search(Some(""), …)` queries
  with `""`.
- Only an extraction result SHORTER than the posting list fails, because
  `keywords.get(i)` throws. Extra keyword lists are ignored. The model uses
  `Thrown(KeywordIndexOutOfBounds)` for the shortfall, not a precondition, so the
  model is total.

## Model

| member | source | states |
|---|---|---|
| Postings.FieldOrEmpty | jupiter/src/main/java/external/GitHubClient.java:119-121 | a field that is missing or JSON null reads as ""; a field holding a string reads as that string |
| Postings.FieldOrEmptyIsEmptyIff | jupiter/src/main/java/external/GitHubClient.java:119-121 | the value read is "" exactly when the field is missing, null, or the empty string |
| Postings.SelectText | jupiter/src/main/java/external/GitHubClient.java:86-92 | the extraction text is the title when the description is "" or "\n", and the description otherwise |
| Postings.SelectedTextIsEmptyOrNewlineIff | jupiter/src/main/java/external/GitHubClient.java:86-92 | the chosen text is "" or "\n" iff both description and title are; a chosen text that differs from the description is the title, and the description was "" or "\n" |
| Items.KeywordSet | jupiter/src/main/java/external/GitHubClient.java:110-111 | the set holds exactly the keywords of the list and is no larger than the list |
| Items.KeywordSetKeepsSizeIffDistinct | jupiter/src/main/java/external/GitHubClient.java:110-111 | the set is as large as the list iff the list has no repeated keyword, so de-duplication drops exactly the repeats |
| Items.RepeatedKeywordCollapses | jupiter/src/main/java/external/GitHubClient.java:111 | ["go","go","java"] becomes the two-element set {"go","java"} |
| Items.MakeItem | jupiter/src/main/java/external/GitHubClient.java:102-114 | itemId, name, address, url and imageUrl come from id, title, location, url and company_logo (each "" when missing or null); the keywords are the members of the keyword list |
| GitHubClient.ExtractionTexts | jupiter/src/main/java/external/GitHubClient.java:82-93 | one text per posting, same length, text i chosen from posting i by the title/description rule |
| GitHubClient.AssembleItems | jupiter/src/main/java/external/GitHubClient.java:101-116 | throws iff there are fewer keyword lists than postings; otherwise exactly one item per posting, in order, item i built from posting i and keyword list i |
| GitHubClient.GetItemList | jupiter/src/main/java/external/GitHubClient.java:78-117 | extraction is called exactly once, with the ordered texts of all postings; the result is those postings zipped with that one answer, or the out-of-bounds exception when the answer is short |
| GitHubClient.Search | jupiter/src/main/java/external/GitHubClient.java:32-77 | a null keyword queries "developer" and any other keyword, "" included, is used as is; a failed request, a non-200 status, a null entity or an unreadable stream give an empty list and no extraction; an unparsable body escapes; a JSON array goes through getItemList |
| SearchItem.Enrich | jupiter/src/main/java/rpc/SearchItem.java:72-77 | same length and order as the items; entry i is item i unchanged, and it is flagged favorite iff its itemId is in the favorite set |
| SearchItem.FlaggedIdsAreFavoritesAmongItems | jupiter/src/main/java/rpc/SearchItem.java:73-77 | the ids flagged favorite across the answer are exactly the favorite ids that occur among the items |
| SearchItem.DoGet | jupiter/src/main/java/rpc/SearchItem.java:38-80 | without a session the reply is status 403 and no external call is made; with one, the job board is queried with "developer", favorites are loaded once and after the search, and entry i is built from posting i and flagged by membership of its id in the favorite set |

## Left out

- HTTP plumbing is not modelled: the Apache client, stream reading and `reader.close()`. A response is an abstract value. The stream read either yields the body with its line terminators removed (each `readLine()` result is appended without its newline), or it is the `IOException` case `ReadFailure`. An `IOException` from `reader.close()` also lands there.
- URL building is not modelled: `URLEncoder.encode` and `String.format` of the URL template with the latitude and longitude. The job board is a function of the un-encoded keyword, and the position is not modelled.
- `Double.parseDouble` of the `lat` and `lon` parameters is not modelled (floating point, and its parse exceptions).
- org.json parsing is not modelled. A parsed body is a sequence of postings whose fields are strings or null. The `getString` type error on a non-string field is not modelled.
- MonkeyLearn's extractor internals (batching, partial failures, a null answer) are not modelled. The extractor is an opaque function called once.
- MySQL is not modelled: connection set-up, `close()` and lookup failures. The favorites store is an opaque function from the `user_id` parameter to a set of ids. A Dafny set value cannot be modified, so the store's set is only read.
- `Item.toJSONObject`, `ItemBuilder` and `RpcHelper.writeJsonArray` are not modelled. An answer element is the item paired with its favorite flag, not serialized JSON.
- `doPost` is not modelled. It only delegates to `doGet`.
- The response status of an answer that escapes `doGet` as an exception is the servlet container's choice, so it is not modelled.
