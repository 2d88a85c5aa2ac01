/** The recipe draft schema: a title and a content, each trimmed and then
    length-checked. The recipe-creation and generation-request schemas are
    the same schema, declared twice in the source. */
module DraftSchema {
  import opened Wrappers
  import opened Text
  import opened Issues

  const MaxTitleLength := 50
  const MaxContentLength := 10000

  const TitleRequired := "Title is required"
  const TitleTooLong := "Title must be ≤ 50 characters"
  const ContentRequired := "Content is required"
  const ContentTooLong := "Content must be ≤ 10 000 characters"

  /** A parsed draft: both fields trimmed. */
  datatype Draft = Draft(title: string, content: string)

  /** The messages of a length check with a minimum of 1 and the given
      maximum, applied to an already trimmed string: at most one fires, none
      exactly when the length is in range, and the "required" one exactly
      for the empty string. */
  function LengthIssues(t: string, max: nat, required: string, tooLong: string): (r: seq<string>)
    ensures r == [] <==> 1 <= |t| <= max
    ensures t == [] ==> r == [required]
    ensures |t| > max ==> r == [tooLong]
  {
    (if |t| < 1 then [required] else []) + (if |t| > max then [tooLong] else [])
  }

  function TitleIssues(title: string): seq<string> {
    LengthIssues(Trim(title), MaxTitleLength, TitleRequired, TitleTooLong)
  }

  function ContentIssues(content: string): seq<string> {
    LengthIssues(Trim(content), MaxContentLength, ContentRequired, ContentTooLong)
  }

  /** The issues of one string field; `None` is a missing or non-string
      value. */
  function FieldIssues(path: string, value: Option<string>, messages: string -> seq<string>): seq<Issue> {
    match value
    case None => [WrongType(path)]
    case Some(s) => AtPath(path, messages(s))
  }

  /** Parses a draft: it succeeds exactly when both fields are strings whose
      trimmed lengths are in range, and then yields the trimmed strings;
      otherwise it reports the title's issues before the content's. */
  function ParseDraft(title: Option<string>, content: Option<string>): (r: Result<Draft, seq<Issue>>)
    ensures r.Success? <==>
              title.Some? && content.Some?
              && 1 <= |Trim(title.value)| <= MaxTitleLength
              && 1 <= |Trim(content.value)| <= MaxContentLength
    ensures r.Success? ==> r.value == Draft(Trim(title.value), Trim(content.value))
    ensures r.Failure? ==> r.error != []
    ensures r.Failure? && title.Some? && Trim(title.value) == [] ==> r.error[0] == Issue("title", TitleRequired)
  {
    var issues := FieldIssues("title", title, TitleIssues) + FieldIssues("content", content, ContentIssues);
    if issues == [] then Success(Draft(Trim(title.value), Trim(content.value)))
    else Failure(issues)
  }

  /** A parsed draft parses again to itself. */
  lemma ParseDraftIdempotent(title: string, content: string)
    requires ParseDraft(Some(title), Some(content)).Success?
    ensures var d := ParseDraft(Some(title), Some(content)).value;
            ParseDraft(Some(d.title), Some(d.content)) == Success(d)
  {
    TrimIdempotent(title);
    TrimIdempotent(content);
  }

  /** A title of whitespace only is rejected, first of all with "Title is
      required". */
  lemma BlankTitleRequired(title: string, content: Option<string>)
    requires AllSpace(title)
    ensures ParseDraft(Some(title), content).Failure?
    ensures ParseDraft(Some(title), content).error[0] == Issue("title", TitleRequired)
  {
    TrimEmptyIffAllSpace(title);
  }
}
