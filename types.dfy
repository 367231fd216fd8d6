/** The records of src/types.ts, as values. */
module Types {
  import opened Wrappers

  /** The smaller of two numbers: how many elements `slice(0, k)` keeps of a list of length `n` is `Min(k, n)`. */
  function Min(a: int, b: int): int
  {
    if a <= b then a else b
  }

  /** One story of a trends feed; `traffic` is the popularity score the feed is ranked by. */
  datatype TrendingStory = TrendingStory(
    title: string,
    traffic: real,
    articleUrl: Option<string>,
    snippet: Option<string>)

  /** What a successful publication reports back to its caller. */
  datatype PublishResult = PublishResult(success: bool, url: Option<string>, id: Option<int>)

  /** The article fields sent to the publishing platform. */
  datatype Article = Article(
    title: string,
    bodyMarkdown: string,
    published: bool,
    tags: seq<string>,
    canonicalUrl: string,
    description: string)

  /** The request body of a publication: the article wrapped in an `article` field. */
  datatype ArticleData = ArticleData(article: Article)

  /** The application settings read once at start-up. */
  datatype AppConfig = AppConfig(
    maxIdeas: nat,
    openaiModel: string,
    shouldPublish: bool,
    geo: string,
    lang: string)
}
