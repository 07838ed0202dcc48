/** The NewsArticle record. */
module Articles {

  /** The section every article belongs to; the query only asks for football. */
  const Section: string := "Section: Football"

  /** One article of the feed. Immutable: the three fields are set by the
      constructor, which accepts any strings, and nothing changes them after. */
  datatype NewsArticle = NewsArticle(title: string, infoUrl: string, thumbnailUrl: string)
  {
    function GetTitle(): string { title }

    function GetInfoUrl(): string { infoUrl }

    function GetThumbnailUrl(): string { thumbnailUrl }

    /** Static in the source: the same constant whatever the article holds. */
    function GetSection(): string { Section }
  }

  /** The getters hand back the constructor arguments in order, for any strings
      (empty ones included), and the section does not depend on the article. */
  lemma ConstructThenGet(title: string, infoUrl: string, thumbnailUrl: string, other: NewsArticle)
    ensures NewsArticle(title, infoUrl, thumbnailUrl).GetTitle() == title
    ensures NewsArticle(title, infoUrl, thumbnailUrl).GetInfoUrl() == infoUrl
    ensures NewsArticle(title, infoUrl, thumbnailUrl).GetThumbnailUrl() == thumbnailUrl
    ensures NewsArticle(title, infoUrl, thumbnailUrl).GetSection() == other.GetSection() == "Section: Football"
  {
  }
}
