/** The stand-in for the recipe-rewriting model: a fixed string transform of
    the title and content. */
module AiAdapter {
  const TitleSuffix := " (Healthier Version)"
  const ContentIntro := "Here is a healthier twist on your recipe: \n"
  const Ellipsis := "..."
  const PreviewLength := 30
  const MockModel := "mock-model"

  datatype Proposal = Proposal(title: string, content: string, model: string)

  /** `content.slice(0, 30)`. */
  function Preview(content: string): (r: string)
    ensures |r| == if |content| < PreviewLength then |content| else PreviewLength
    ensures r == content[..|r|]
  {
    if |content| < PreviewLength then content else content[..PreviewLength]
  }

  /** The proposal: the title with a suffix, and the first thirty characters
      of the content between a fixed introduction and an ellipsis. */
  function GenerateRecipeProposal(title: string, content: string): (p: Proposal)
    ensures p.model == MockModel
    ensures |p.content| <= |ContentIntro| + PreviewLength + |Ellipsis|
  {
    Proposal(title + TitleSuffix, ContentIntro + Preview(content) + Ellipsis, MockModel)
  }

  /** The title a proposal was made from: its title without the suffix. */
  function OriginalTitle(p: Proposal): string
    requires |p.title| >= |TitleSuffix|
  {
    p.title[..|p.title| - |TitleSuffix|]
  }

  /** The preview a proposal carries: its content between the introduction
      and the ellipsis. */
  function CarriedPreview(p: Proposal): string
    requires |p.content| >= |ContentIntro| + |Ellipsis|
  {
    p.content[|ContentIntro|..|p.content| - |Ellipsis|]
  }

  /** The title comes back whole; the content comes back as its first thirty
      characters, so whole exactly when it is at most thirty long. */
  lemma ProposalKeepsInput(title: string, content: string)
    ensures var p := GenerateRecipeProposal(title, content);
            && OriginalTitle(p) == title
            && CarriedPreview(p) == Preview(content)
            && (CarriedPreview(p) == content <==> |content| <= PreviewLength)
  {
    var p := GenerateRecipeProposal(title, content);
    assert p.title == title + TitleSuffix;
    assert p.content == ContentIntro + Preview(content) + Ellipsis;
  }
}
