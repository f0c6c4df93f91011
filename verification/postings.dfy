/**
  A job posting as the job board's JSON feed delivers it, and the two pure
  helpers GitHubClient applies to one posting: reading a string field with an
  empty-string default, and choosing the text sent to keyword extraction.
 */
module Postings {
  import opened Wrappers

  /** One JSON object of the feed. A field that is absent from the map is a
      missing key; a field mapped to None holds JSON null. */
  type Posting = map<string, Option<string>>

  const ID := "id"
  const TITLE := "title"
  const LOCATION := "location"
  const URL := "url"
  const COMPANY_LOGO := "company_logo"
  const DESCRIPTION := "description"

  /** The raw entry of a field: None when the key is missing. */
  function Lookup(p: Posting, field: string): Option<Option<string>>
  {
    if field in p then Some(p[field]) else None
  }

  /** getStringFieldOrEmpty: a missing or null field reads as "", any other
      field as its string. */
  function FieldOrEmpty(p: Posting, field: string): (r: string)
    ensures field in p && p[field].Some? ==> r == p[field].value
    ensures field !in p || p[field].None? ==> r == ""
  {
    match Lookup(p, field)
    case Some(Some(s)) => s
    case _ => ""
  }

  /** The value reads as empty exactly when the field is missing, null or
      the empty string itself. */
  lemma FieldOrEmptyIsEmptyIff(p: Posting, field: string)
    ensures FieldOrEmpty(p, field) == "" <==>
            (field !in p || p[field] == None || p[field] == Some(""))
  {
  }

  /** A description that carries no text of its own: empty, or one newline. */
  predicate IsEmptyOrNewline(text: string)
  {
    text == "" || text == "\n"
  }

  /** The text of a posting that is fed to keyword extraction: its
      description, or its title when the description is "" or "\n". */
  function SelectText(p: Posting): (t: string)
    ensures IsEmptyOrNewline(FieldOrEmpty(p, DESCRIPTION)) ==> t == FieldOrEmpty(p, TITLE)
    ensures !IsEmptyOrNewline(FieldOrEmpty(p, DESCRIPTION)) ==> t == FieldOrEmpty(p, DESCRIPTION)
  {
    var description := FieldOrEmpty(p, DESCRIPTION);
    if IsEmptyOrNewline(description) then FieldOrEmpty(p, TITLE) else description
  }

  /** The selected text is "" or "\n" only when both the description and
      the title are; and it is the title whenever it differs from the
      description. */
  lemma SelectedTextIsEmptyOrNewlineIff(p: Posting)
    ensures IsEmptyOrNewline(SelectText(p)) <==>
            IsEmptyOrNewline(FieldOrEmpty(p, DESCRIPTION)) && IsEmptyOrNewline(FieldOrEmpty(p, TITLE))
    ensures SelectText(p) != FieldOrEmpty(p, DESCRIPTION) ==>
            SelectText(p) == FieldOrEmpty(p, TITLE) && IsEmptyOrNewline(FieldOrEmpty(p, DESCRIPTION))
  {
  }
}
