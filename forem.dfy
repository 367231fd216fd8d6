/**
 * The publishing service (src/services/forem.service.ts): it builds the
 * article sent to a Forem platform (dev.to) from the generated text and the
 * topics that produced it, and turns the platform's answer into a
 * `PublishResult` or an error.
 *
 * The HTTP exchange itself is outside the model: the platform's answer is a
 * parameter, either the reply or the error the request raised.
 */
module Forem {
  import opened Wrappers
  import opened Types

  const MissingKeyMessage := "FOREM_API_KEY not found in environment variables"
  const DefaultBaseUrl := "https://dev.to/api"
  const UnexpectedFormatMessage := "Unexpected response format from Forem API"

  const TitlePrefix := "\U{1F4A1} Ideias de SaaS Baseadas nas Tendências: "
  const DescriptionPrefix := "Ideias inovadoras de SaaS baseadas nas tendências atuais: "
  const Footer := "*Este artigo foi gerado automaticamente pelo SaaS Genie, uma ferramenta que identifica tendências e gera ideias de negócios SaaS inovadores.*"
  const TopicsLabel := "**Tópicos em alta analisados:** "
  const Hashtags := "#saas #startup #tendencias #negocios #inovacao"
  const Tags := ["saas", "startup", "tendencias", "negocios"]
  const TopicSeparator := ", "
  /** How many topics the title and the description name. */
  const HeadlineTopics: nat := 3

  /** The credentials and address a service is built with. */
  datatype ForemService = ForemService(apiKey: string, baseUrl: string)

  /** The constructor: an empty key is refused; an undefined base URL takes the default. */
  function NewForemService(apiKey: string, baseUrl: Option<string>): (r: Result<ForemService, string>)
    ensures r.Err? <==> apiKey == ""
    ensures r.Err? ==> r.error == MissingKeyMessage
    ensures r.Ok? ==> r.value.apiKey == apiKey
    ensures r.Ok? && baseUrl.Some? ==> r.value.baseUrl == baseUrl.value
    ensures r.Ok? && baseUrl.None? ==> r.value.baseUrl == "https://dev.to/api"
  {
    if apiKey == "" then Err(MissingKeyMessage)
    else Ok(ForemService(apiKey, if baseUrl.Some? then baseUrl.value else DefaultBaseUrl))
  }

  /** `Array.prototype.join`: the strings one after the other, `sep` between neighbours. */
  function Join(xs: seq<string>, sep: string): string
  {
    if |xs| == 0 then ""
    else if |xs| == 1 then xs[0]
    else xs[0] + sep + Join(xs[1..], sep)
  }

  /** The position at which `xs[i]` starts in `Join(xs, sep)`. */
  function JoinOffset(xs: seq<string>, sep: string, i: nat): nat
    requires i < |xs|
  {
    if i == 0 then 0 else |xs[0]| + |sep| + JoinOffset(xs[1..], sep, i - 1)
  }

  /** Every string joined appears, whole, at its offset in the joined text. */
  lemma {:induction false} JoinContains(xs: seq<string>, sep: string, i: nat)
    requires i < |xs|
    ensures JoinOffset(xs, sep, i) + |xs[i]| <= |Join(xs, sep)|
    ensures Join(xs, sep)[JoinOffset(xs, sep, i)..JoinOffset(xs, sep, i) + |xs[i]|] == xs[i]
  {
    if i == 0 {
      if |xs| > 1 {
        var rest := sep + Join(xs[1..], sep);
        assert Join(xs, sep) == xs[0] + rest;
        assert (xs[0] + rest)[..|xs[0]|] == xs[0];
      }
    } else {
      var tail := xs[1..];
      var head := xs[0] + sep;
      var o := JoinOffset(tail, sep, i - 1);
      JoinContains(tail, sep, i - 1);
      assert xs[i] == tail[i - 1];
      assert JoinOffset(xs, sep, i) == |head| + o;
      assert Join(xs, sep) == head + Join(tail, sep);
      SliceAfter(head, Join(tail, sep), o, |xs[i]|);
    }
  }

  /** A slice of the second part of a concatenation is that slice of the second part. */
  lemma SliceAfter(a: string, b: string, o: nat, n: nat)
    requires o + n <= |b|
    ensures (a + b)[|a| + o..|a| + o + n] == b[o..o + n]
  {
  }

  /** Joining the first `k` strings gives a prefix of joining them all. */
  lemma {:induction false} JoinPrefix(xs: seq<string>, sep: string, k: nat)
    requires k <= |xs|
    ensures Join(xs[..k], sep) <= Join(xs, sep)
  {
    if k == 1 {
      assert xs[..1] == [xs[0]];
    } else if k >= 2 {
      assert xs[..k][1..] == xs[1..][..k - 1];
      JoinPrefix(xs[1..], sep, k - 1);
      var head := xs[0] + sep;
      assert Join(xs[..k], sep) == head + Join(xs[1..][..k - 1], sep);
      assert Join(xs, sep) == head + Join(xs[1..], sep);
    }
  }

  /** The first topics, at most three of them, that title and description name. */
  function LeadingTopics(topics: seq<string>): (lead: seq<string>)
    ensures |lead| == Min(HeadlineTopics, |topics|)
    ensures lead <= topics
  {
    topics[..Min(HeadlineTopics, |topics|)]
  }

  /** A list joined with `sep`, between a `lead` and a `tail`. */
  function Framed(lead: string, xs: seq<string>, sep: string, tail: string): string
  {
    lead + Join(xs, sep) + tail
  }

  /** What follows the generated text in the body: the footer, the topics line, the hashtags. */
  function Trailer(topics: seq<string>): string
  {
    Framed(TrailerLead, topics, TopicSeparator, TrailerEnd)
  }

  /** The end of the trailer, after the last topic. */
  const TrailerEnd := "\n\n" + Hashtags

  /** The start of the trailer, up to the first topic of the topics line. */
  const TrailerLead := "\n\n---\n\n" + Footer + "\n\n" + TopicsLabel

  /**
   * `createArticleData`: the article for some generated text. The title and
   * the description name the same leading topics after their own fixed
   * prefixes, and those topics open the list the body gives of all topics;
   * the body starts with the title as a heading followed by the text,
   * unchanged, and ends with the topics line and the hashtags; tags and
   * canonical URL are the same for every article.
   */
  function CreateArticleData(content: string, topics: seq<string>, published: bool): (d: ArticleData)
    ensures TitlePrefix <= d.article.title
    ensures DescriptionPrefix <= d.article.description
    ensures d.article.title[|TitlePrefix|..] == Join(LeadingTopics(topics), TopicSeparator)
    ensures d.article.title[|TitlePrefix|..] == d.article.description[|DescriptionPrefix|..]
    ensures d.article.title[|TitlePrefix|..] <= Join(topics, TopicSeparator)
    ensures |topics| <= HeadlineTopics ==> d.article.title[|TitlePrefix|..] == Join(topics, TopicSeparator)
    ensures "# " + d.article.title + "\n\n" + content <= d.article.bodyMarkdown
    ensures |d.article.bodyMarkdown| == |"# " + d.article.title + "\n\n" + content| + |Trailer(topics)|
    ensures d.article.bodyMarkdown[|d.article.bodyMarkdown| - |Trailer(topics)|..] == Trailer(topics)
    ensures d.article.published == published
    ensures d.article.tags == ["saas", "startup", "tendencias", "negocios"]
    ensures d.article.canonicalUrl == ""
  {
    var lead := Join(LeadingTopics(topics), TopicSeparator);
    var title := TitlePrefix + lead;
    var head := "# " + title + "\n\n" + content;
    var body := head + Trailer(topics);
    var description := DescriptionPrefix + lead;
    assert title[|TitlePrefix|..] == lead;
    assert description[|DescriptionPrefix|..] == lead;
    assert body[|body| - |Trailer(topics)|..] == Trailer(topics);
    JoinPrefix(topics, TopicSeparator, |LeadingTopics(topics)|);
    assert |topics| <= HeadlineTopics ==> LeadingTopics(topics) == topics;
    ArticleData(Article(title, body, published, Tags, "", description))
  }

  /** A slice of the middle part of a concatenation is that slice of the middle part. */
  lemma SliceOfMiddle(a: string, b: string, c: string, o: nat, n: nat)
    requires o + n <= |b|
    ensures (a + b + c)[|a| + o..|a| + o + n] == b[o..o + n]
  {
  }

  /** A slice of a text's suffix `tail` is the same slice of the text, shifted by where `tail` starts. */
  lemma SliceOfSuffix(s: string, tail: string, o: nat, n: nat)
    requires |tail| <= |s| && s[|s| - |tail|..] == tail && o + n <= |tail|
    ensures s[|s| - |tail| + o..|s| - |tail| + o + n] == tail[o..o + n]
  {
    var start := |s| - |tail|;
    assert s[start + o..start + o + n] == s[start..][o..o + n];
  }

  /** Item `i` of a framed list stands, whole, after the lead and the items before it. */
  lemma FramedItem(lead: string, xs: seq<string>, sep: string, tail: string, i: nat)
    requires i < |xs|
    ensures var at := |lead| + JoinOffset(xs, sep, i);
            at + |xs[i]| <= |Framed(lead, xs, sep, tail)| && Framed(lead, xs, sep, tail)[at..at + |xs[i]|] == xs[i]
  {
    JoinContains(xs, sep, i);
    SliceOfMiddle(lead, Join(xs, sep), tail, JoinOffset(xs, sep, i), |xs[i]|);
  }

  /** Any text ending with a framed list holds item `i` of the list, whole, in that frame. */
  lemma EndingListsItem(text: string, lead: string, xs: seq<string>, sep: string, tail: string, i: nat)
    requires i < |xs|
    requires |Framed(lead, xs, sep, tail)| <= |text|
    requires text[|text| - |Framed(lead, xs, sep, tail)|..] == Framed(lead, xs, sep, tail)
    ensures var at := |text| - |Framed(lead, xs, sep, tail)| + |lead| + JoinOffset(xs, sep, i);
            at + |xs[i]| <= |text| && text[at..at + |xs[i]|] == xs[i]
  {
    var frame := Framed(lead, xs, sep, tail);
    var at := |lead| + JoinOffset(xs, sep, i);
    FramedItem(lead, xs, sep, tail, i);
    SliceOfSuffix(text, frame, at, |xs[i]|);
  }

  /** Topic `i` stands, whole, in the topics line of the trailer. */
  lemma TrailerListsTopic(topics: seq<string>, i: nat)
    requires i < |topics|
    ensures var at := |TrailerLead| + JoinOffset(topics, TopicSeparator, i);
            at + |topics[i]| <= |Trailer(topics)| && Trailer(topics)[at..at + |topics[i]|] == topics[i]
  {
    FramedItem(TrailerLead, topics, TopicSeparator, TrailerEnd, i);
  }

  /** Any text ending with the trailer lists topic `i`, whole, in that trailer's topics line. */
  lemma EndingListsTopic(text: string, topics: seq<string>, i: nat)
    requires i < |topics|
    requires |Trailer(topics)| <= |text| && text[|text| - |Trailer(topics)|..] == Trailer(topics)
    ensures var at := |text| - |Trailer(topics)| + |TrailerLead| + JoinOffset(topics, TopicSeparator, i);
            at + |topics[i]| <= |text| && text[at..at + |topics[i]|] == topics[i]
  {
    EndingListsItem(text, TrailerLead, topics, TopicSeparator, TrailerEnd, i);
  }

  /** The body lists every topic: topic `i` stands, whole, in the topics line near its end. */
  lemma BodyListsEveryTopic(content: string, topics: seq<string>, published: bool, i: nat)
    requires i < |topics|
    ensures var body := CreateArticleData(content, topics, published).article.bodyMarkdown;
            var at := |body| - |Trailer(topics)| + |TrailerLead| + JoinOffset(topics, TopicSeparator, i);
            at + |topics[i]| <= |body| && body[at..at + |topics[i]|] == topics[i]
  {
    EndingListsTopic(CreateArticleData(content, topics, published).article.bodyMarkdown, topics, i);
  }

  /** The fields of the platform's reply that the service looks at. */
  datatype ReplyBody = ReplyBody(url: Option<string>, id: Option<int>)

  /** The platform's reply; `data` is absent when the reply carried no body. */
  datatype HttpReply = HttpReply(data: Option<ReplyBody>)

  /** Why a publication failed: the request's own error, re-thrown, or a reply of the wrong shape. */
  datatype ForemError = RequestFailed(cause: string) | UnexpectedResponseFormat

  function ErrorMessage(e: ForemError): string
  {
    match e
    case RequestFailed(cause) => cause
    case UnexpectedResponseFormat => UnexpectedFormatMessage
  }

  /** `response.data && response.data.url`: a URL that is present and not empty. */
  predicate HasUrl(reply: HttpReply)
  {
    reply.data.Some? && reply.data.value.url.Some? && reply.data.value.url.value != ""
  }

  /** `response.data && response.data.id`: an id that is present and not zero. */
  predicate HasId(reply: HttpReply)
  {
    reply.data.Some? && reply.data.value.id.Some? && reply.data.value.id.value != 0
  }

  /**
   * The check of `publishArticle` and `updateArticle`: a reply with a URL is a
   * success carrying that URL and the reply's id; anything else is an error,
   * so a result that is returned always reports success.
   */
  function AcceptArticle(reply: Result<HttpReply, string>): (r: Result<PublishResult, ForemError>)
    ensures r.Ok? <==> reply.Ok? && HasUrl(reply.value)
    ensures r.Ok? ==> r.value.success && r.value.url == reply.value.data.value.url
    ensures r.Ok? ==> r.value.url.Some? && r.value.id == reply.value.data.value.id
    ensures reply.Err? ==> r == Err(RequestFailed(reply.error))
    ensures reply.Ok? && !HasUrl(reply.value) ==> r == Err(UnexpectedResponseFormat)
  {
    match reply
    case Err(cause) => Err(RequestFailed(cause))
    case Ok(answer) =>
      if HasUrl(answer) then Ok(PublishResult(true, answer.data.value.url, answer.data.value.id))
      else Err(UnexpectedResponseFormat)
  }

  /**
   * The check of `publishDraft`: a reply with an id is a success carrying
   * that id and no URL; anything else is an error.
   */
  function AcceptDraft(reply: Result<HttpReply, string>): (r: Result<PublishResult, ForemError>)
    ensures r.Ok? <==> reply.Ok? && HasId(reply.value)
    ensures r.Ok? ==> r.value.success && r.value.url.None?
    ensures r.Ok? ==> r.value.id.Some? && r.value.id == reply.value.data.value.id
    ensures reply.Err? ==> r == Err(RequestFailed(reply.error))
    ensures reply.Ok? && !HasId(reply.value) ==> r == Err(UnexpectedResponseFormat)
  {
    match reply
    case Err(cause) => Err(RequestFailed(cause))
    case Ok(answer) =>
      if HasId(answer) then Ok(PublishResult(true, None, answer.data.value.id))
      else Err(UnexpectedResponseFormat)
  }

  /** What is asked of the platform: a new article, or new contents for an existing one. */
  datatype Request = CreateArticle(body: ArticleData) | ReplaceArticle(articleId: int, body: ArticleData)

  /** One exchange with the platform: the request sent and what the service makes of the reply. */
  datatype Publication = Publication(request: Request, result: Result<PublishResult, ForemError>)

  /** `publishArticle`: a published article is created; the reply must carry its URL. */
  function PublishArticle(content: string, topics: seq<string>, reply: Result<HttpReply, string>): (p: Publication)
    ensures p.request == CreateArticle(CreateArticleData(content, topics, true))
    ensures p.request.body.article.published
    ensures p.result.Ok? <==> reply.Ok? && HasUrl(reply.value)
    ensures p.result.Ok? ==> p.result.value.success && p.result.value.url.Some?
    ensures p.result == AcceptArticle(reply)
  {
    Publication(CreateArticle(CreateArticleData(content, topics, true)), AcceptArticle(reply))
  }

  /** `publishDraft`: an unpublished article is created; the reply must carry its id. */
  function PublishDraft(content: string, topics: seq<string>, reply: Result<HttpReply, string>): (p: Publication)
    ensures p.request == CreateArticle(CreateArticleData(content, topics, false))
    ensures !p.request.body.article.published
    ensures p.result.Ok? <==> reply.Ok? && HasId(reply.value)
    ensures p.result.Ok? ==> p.result.value.success && p.result.value.url.None?
    ensures p.result == AcceptDraft(reply)
  {
    Publication(CreateArticle(CreateArticleData(content, topics, false)), AcceptDraft(reply))
  }

  /** `updateArticle`: article `articleId` is replaced by a published one; the reply must carry its URL. */
  function UpdateArticle(articleId: int, content: string, topics: seq<string>, reply: Result<HttpReply, string>): (p: Publication)
    ensures p.request == ReplaceArticle(articleId, CreateArticleData(content, topics, true))
    ensures p.request.body.article.published
    ensures p.result.Ok? <==> reply.Ok? && HasUrl(reply.value)
    ensures p.result.Ok? ==> p.result.value.success && p.result.value.url.Some?
    ensures p.result == AcceptArticle(reply)
  {
    Publication(ReplaceArticle(articleId, CreateArticleData(content, topics, true)), AcceptArticle(reply))
  }

  /** A draft and a published article for the same text differ only in being published. */
  lemma DraftDiffersOnlyInPublished(content: string, topics: seq<string>)
    ensures CreateArticleData(content, topics, false).article
         == CreateArticleData(content, topics, true).article.(published := false)
  {
  }
}
