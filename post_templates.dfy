/**
 * The mock post generator: four fixed templates filled in with the user's
 * topic. A template is a list of pieces: literal text, the topic itself
 * (`${userInput}`), and the topic hashtag (`#${userInput.replace(/\s+/g, '')}`).
 * The batch id, which the source takes from the clock, is a parameter.
 */
module PostTemplates {
  import opened JsText

  datatype PostType = Standard | Story | Facts | Professional

  /** A generated post; `authorName` and `authorPosition` are left unset. */
  datatype GeneratedPost = GeneratedPost(
    id: string, title: string, content: string, postType: PostType,
    authorName: Option<string>, authorPosition: Option<string>)

  datatype Piece = Text(template: PostType, index: nat) | Topic | Hashtag

  function Render(p: Piece, userInput: string): string {
    match p
    case Text(t, i) => TextOf(t, i)
    case Topic => userInput
    case Hashtag => "#" + RemoveSpaces(userInput)
  }

  /** The template with every piece rendered, in order. */
  function Fill(pieces: seq<Piece>, userInput: string): string {
    if pieces == [] then "" else Render(pieces[0], userInput) + Fill(pieces[1..], userInput)
  }

  // The template texts, character for character, including the line breaks
  // and indentation inside the template literals. A template refers to its
  // texts by number.

  function TextOf(t: PostType, i: nat): string {
    match t
    case Standard => StandardText(i)
    case Story => StoryText(i)
    case Facts => FactsText(i)
    case Professional => ProfessionalText(i)
  }

  function StandardText(i: nat): string {
    match i
    case 0 => "\n      <p>I've been reflecting on "
    case 1 => " lately, and it's opened up new perspectives for me in my professional journey.</p>\n      <p>This insight has helped me understand how impactful "
    case 2 => " can be in today's changing business landscape.</p>\n      <p>Have you experimented with "
    case 3 => " in your work? I'd love to hear your experiences!</p>\n      <p>"
    case _ => " #ProfessionalGrowth #Innovation</p>\n    "
  }

  function StoryText(i: nat): string {
    match i
    case 0 => "\n      <p>A quick story about "
    case 1 => " that changed my perspective:</p>\n      <p>Last year, I was struggling with implementing "
    case 2 => " in our workflow. It seemed overwhelming and unnecessarily complex.</p>\n      <p>Then, a colleague shared how they had tackled a similar challenge. Their approach was eye-opening.</p>\n      <p>Three months later, our team efficiency improved by 35% and we're now helping other departments implement similar solutions.</p>\n      <p>The lesson? Sometimes the most valuable insights come from unexpected sources.</p>\n      <p>"
    case _ => " #LessonsLearned #GrowthMindset</p>\n    "
  }

  function FactsText(i: nat): string {
    match i
    case 0 => "\n      <p>\U{F8FF}\U{FC}\U{EC}\U{E4} 3 Fascinating Facts About "
    case 1 => " That Might Surprise You:</p>\n      <p>1\U{D4}\U{220F}\U{E8}\U{201A}\U{C9}\U{A3} Did you know? Studies show that companies implementing "
    case 2 => " see an average 27% increase in productivity.</p>\n      <p>2\U{D4}\U{220F}\U{E8}\U{201A}\U{C9}\U{A3} Over 65% of Fortune 500 companies have integrated "
    case 3 => " into their core strategies in the past 2 years.</p>\n      <p>3\U{D4}\U{220F}\U{E8}\U{201A}\U{C9}\U{A3} Experts predict that "
    case 4 => " will transform our industry within the next decade, creating new job categories we haven't even imagined yet.</p>\n      <p>What other facts about "
    case 5 => " have you discovered? Share in the comments!</p>\n      <p>"
    case _ => " #IndustryInsights #FutureOfWork</p>\n    "
  }

  function ProfessionalText(i: nat): string {
    match i
    case 0 => "\n      <p>I'm excited to share my latest article on "
    case 1 => " and its implications for our industry.</p>\n      <p>Key takeaways:</p>\n      <p>\U{201A}\U{C4}\U{A2} "
    case 2 => " is revolutionizing how we approach business challenges</p>\n      <p>\U{201A}\U{C4}\U{A2} Implementation requires strategic planning and cross-functional collaboration</p>\n      <p>\U{201A}\U{C4}\U{A2} Early adopters are already seeing significant ROI</p>\n      <p>I've included a framework for assessment and implementation that my team has refined over the past quarters.</p>\n      <p>Link to the full article in comments. Would appreciate your thoughts and feedback.</p>\n      <p>"
    case _ => " #ThoughtLeadership #IndustryTrends</p>\n    "
  }



  const StandardTemplate: seq<Piece> := [
    Text(Standard, 0),
    Topic,
    Text(Standard, 1),
    Topic,
    Text(Standard, 2),
    Topic,
    Text(Standard, 3),
    Hashtag,
    Text(Standard, 4)
  ]


  const StoryTemplate: seq<Piece> := [
    Text(Story, 0),
    Topic,
    Text(Story, 1),
    Topic,
    Text(Story, 2),
    Hashtag,
    Text(Story, 3)
  ]


  const FactsTemplate: seq<Piece> := [
    Text(Facts, 0),
    Topic,
    Text(Facts, 1),
    Topic,
    Text(Facts, 2),
    Topic,
    Text(Facts, 3),
    Topic,
    Text(Facts, 4),
    Topic,
    Text(Facts, 5),
    Hashtag,
    Text(Facts, 6)
  ]


  const ProfessionalTemplate: seq<Piece> := [
    Text(Professional, 0),
    Topic,
    Text(Professional, 1),
    Topic,
    Text(Professional, 2),
    Hashtag,
    Text(Professional, 3)
  ]


  function TemplateOf(t: PostType): seq<Piece> {
    match t
    case Standard => StandardTemplate
    case Story => StoryTemplate
    case Facts => FactsTemplate
    case Professional => ProfessionalTemplate
  }

  function IdPrefix(t: PostType): string {
    match t
    case Standard => "standard-"
    case Story => "story-"
    case Facts => "facts-"
    case Professional => "professional-"
  }

  function Title(t: PostType): string {
    match t
    case Standard => "Standard Post"
    case Story => "Story Post"
    case Facts => "Facts Post"
    case Professional => "Professional Post"
  }

  const PostTypes: seq<PostType> := [Standard, Story, Facts, Professional]

  function Post(t: PostType, userInput: string, batchId: string): GeneratedPost {
    GeneratedPost(IdPrefix(t) + batchId, Title(t), Fill(TemplateOf(t), userInput), t, None, None)
  }

  /** `generatePosts(userInput)`, with the batch id given: one post per type, in this order. */
  function GeneratePosts(userInput: string, batchId: string): (r: seq<GeneratedPost>)
    ensures |r| == 4
    ensures forall i :: 0 <= i < 4 ==>
              && r[i].postType == PostTypes[i]
              && r[i].id == IdPrefix(PostTypes[i]) + batchId
              && r[i].title == Title(PostTypes[i])
              && r[i].authorName.None? && r[i].authorPosition.None?
              && r[i].content == Fill(TemplateOf(PostTypes[i]), userInput)
  {
    seq(4, i requires 0 <= i < 4 => Post(PostTypes[i], userInput, batchId))
  }

  /** Rendering distributes over concatenation of templates. */
  lemma {:induction false} FillAppend(a: seq<Piece>, b: seq<Piece>, userInput: string)
    ensures Fill(a + b, userInput) == Fill(a, userInput) + Fill(b, userInput)
  {
    if a != [] {
      assert (a + b)[0] == a[0];
      assert (a + b)[1..] == a[1..] + b;
      FillAppend(a[1..], b, userInput);
    } else {
      assert a + b == b;
    }
  }

  /** The rendered template splits around any one of its pieces. */
  lemma FillAround(pieces: seq<Piece>, userInput: string, k: nat)
    requires k < |pieces|
    ensures Fill(pieces, userInput) ==
            Fill(pieces[..k], userInput) + Render(pieces[k], userInput) + Fill(pieces[k + 1..], userInput)
  {
    assert pieces == pieces[..k] + ([pieces[k]] + pieces[k + 1..]);
    FillAppend(pieces[..k], [pieces[k]] + pieces[k + 1..], userInput);
    assert ([pieces[k]] + pieces[k + 1..])[1..] == pieces[k + 1..];
  }

  /** A template that opens with a text and the topic, and has a hashtag piece somewhere. */
  predicate WellShaped(ps: seq<Piece>) {
    |ps| >= 2 && ps[0].Text? && ps[1] == Topic && exists k :: 0 <= k < |ps| && ps[k] == Hashtag
  }

  /** Every one of the four templates has that shape. */
  lemma TemplateShape(t: PostType)
    ensures WellShaped(TemplateOf(t))
  {
    var ps := TemplateOf(t);
    assert ps[|ps| - 2] == Hashtag;
  }

  /**
   * A well-shaped template embeds the topic verbatim right after its opening
   * text, and carries the topic hashtag: "#" and the topic with all white
   * space removed.
   */
  lemma FilledCarriesTopic(ps: seq<Piece>, userInput: string)
    requires WellShaped(ps)
    ensures var content := Fill(ps, userInput);
            StartsWith(content, Render(ps[0], userInput) + userInput)
            && Contains(content, "#" + RemoveSpaces(userInput))
            && NoSpace(RemoveSpaces(userInput))
  {
    var content := Fill(ps, userInput);
    assert ps[1..][0] == Topic;
    assert content == Render(ps[0], userInput) + (userInput + Fill(ps[2..], userInput)) by {
      assert content == Render(ps[0], userInput) + Fill(ps[1..], userInput);
      assert Fill(ps[1..], userInput) == userInput + Fill(ps[1..][1..], userInput);
      assert ps[1..][1..] == ps[2..];
    }
    assert content[..|Render(ps[0], userInput) + userInput|] == Render(ps[0], userInput) + userInput;
    var k :| 0 <= k < |ps| && ps[k] == Hashtag;
    FillAround(ps, userInput, k);
    var tag := "#" + RemoveSpaces(userInput);
    var at := |Fill(ps[..k], userInput)|;
    assert content[at..at + |tag|] == tag;
    assert OccursAt(content, tag, at);
  }

  /** Each generated post embeds the topic after its opening text and carries the topic hashtag. */
  lemma ContentCarriesTopic(t: PostType, userInput: string)
    ensures var ps := TemplateOf(t);
            var content := Fill(ps, userInput);
            StartsWith(content, Render(ps[0], userInput) + userInput)
            && Contains(content, "#" + RemoveSpaces(userInput))
  {
    TemplateShape(t);
    FilledCarriesTopic(TemplateOf(t), userInput);
  }

  lemma ConcatSameSuffix(p: string, q: string, b: string)
    requires p + b == q + b
    ensures p == q
  {
    assert |p| == |q|;
    assert p == (p + b)[..|p|];
    assert q == (q + b)[..|q|];
  }

  /** The four ids of a batch are pairwise distinct, since their prefixes are. */
  lemma IdsDistinct(userInput: string, batchId: string)
    ensures var r := GeneratePosts(userInput, batchId);
            forall i, j :: 0 <= i < j < 4 ==> r[i].id != r[j].id
  {
    var r := GeneratePosts(userInput, batchId);
    forall i, j | 0 <= i < j < 4 ensures r[i].id != r[j].id {
      var p, q := IdPrefix(PostTypes[i]), IdPrefix(PostTypes[j]);
      PrefixesDiffer(PostTypes[i], PostTypes[j]);
      if p + batchId == q + batchId {
        ConcatSameSuffix(p, q, batchId);
      }
    }
  }

  lemma PrefixesDiffer(t: PostType, u: PostType)
    requires t != u
    ensures IdPrefix(t) != IdPrefix(u)
  {
  }
}
