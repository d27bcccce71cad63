/**
 The poster studio: a topic goes to the copy and image calls at once, and the
 two answers are merged into a poster, each text field falling back to a
 fixed default when the copy leaves it empty.
 */
module Marketing {
  import opened Wrappers
  import opened Types
  import opened Gemini

  const DataUrlPrefix: string := "data:image/jpeg;base64,"

  datatype MarketingState = MarketingState(topic: string, isGenerating: bool, poster: Option<Poster>)

  /**
   handleGenerate up to the remote calls.  None: the topic is empty, the
   handler returns at once and nothing is requested.
   */
  function StartGenerate(st: MarketingState): (r: Option<MarketingState>)
    ensures r.None? <==> st.topic == ""
    ensures r.Some? ==> r.value.topic == st.topic && r.value.isGenerating && r.value.poster.None?
  {
    if st.topic == "" then None else Some(st.(isGenerating := true, poster := None))
  }

  /** The poster image as a JPEG data URL, present only for a non-empty payload. */
  function ImageUrl(image: Option<string>): (url: Option<string>)
    ensures url.Some? <==> image.Some? && image.value != ""
    ensures url.Some? ==> StartsWithPrefix(url.value) && url.value[|DataUrlPrefix|..] == image.value
  {
    if image.Some? && image.value != "" then Some(DataUrlPrefix + image.value) else None
  }

  predicate StartsWithPrefix(url: string) {
    |DataUrlPrefix| <= |url| && url[..|DataUrlPrefix|] == DataUrlPrefix
  }

  /** The payload is recovered from the data URL by dropping the prefix. */
  lemma ImageUrlRoundTrip(payload: string)
    requires payload != ""
    ensures ImageUrl(Some(payload)).value[|DataUrlPrefix|..] == payload
  {
  }

  /**
   The poster built from the two answers.  A copy that is the JSON literal
   `null` makes reading its fields throw; the handler catches that and no
   poster is set.
   */
  function ComposePoster(copy: CopyJson, image: Option<string>, id: string, now: string): (p: Option<Poster>)
    ensures p.Some? <==> copy.CopyObject?
    ensures p.Some? ==> p.value.id == id && p.value.createdAt == now && p.value.imageUrl == ImageUrl(image)
    ensures p.Some? ==> p.value.headline != "" && p.value.subline != "" && p.value.body != "" && p.value.colorTheme != ""
  {
    match copy
    case CopyNull => None
    case CopyObject(headline, subline, body, colorTheme) =>
      Some(Poster(
        id,
        OrText(headline, "Special Offer"),
        OrText(subline, "Limited Time"),
        OrText(body, "Visit us today!"),
        OrText(colorTheme, FallbackColor),
        ImageUrl(image),
        now))
  }

  /** A copy field that is present and non-empty is used verbatim; otherwise its default is. */
  lemma PosterFieldsFallBack(h: Option<string>, s: Option<string>, b: Option<string>, c: Option<string>, image: Option<string>, id: string, now: string)
    ensures var p := ComposePoster(CopyObject(h, s, b, c), image, id, now).value;
      && p.headline == (if h.Some? && h.value != "" then h.value else "Special Offer")
      && p.subline == (if s.Some? && s.value != "" then s.value else "Limited Time")
      && p.body == (if b.Some? && b.value != "" then b.value else "Visit us today!")
      && p.colorTheme == (if c.Some? && c.value != "" then c.value else "#3b82f6")
  {
  }

  /** The end of handleGenerate: the poster (if any) is set and the generating flag is cleared. */
  function FinishGenerate(started: MarketingState, copy: CopyJson, image: Option<string>, id: string, now: string): (st: MarketingState)
    ensures !st.isGenerating && st.topic == started.topic
    ensures st.poster == ComposePoster(copy, image, id, now)
  {
    started.(isGenerating := false, poster := ComposePoster(copy, image, id, now))
  }

  /**
   handleGenerate as a whole, given the two answers the service calls
   resolved to (both calls absorb their own failures, so both always resolve).
   */
  function HandleGenerate(st: MarketingState, copy: CopyJson, image: Option<string>, id: string, now: string): (r: MarketingState)
    ensures st.topic == "" ==> r == st
    ensures st.topic != "" ==> !r.isGenerating && r.poster == ComposePoster(copy, image, id, now)
  {
    match StartGenerate(st)
    case None => st
    case Some(started) => FinishGenerate(started, copy, image, id, now)
  }

  /**
   A failed copy call still yields a complete poster: the fallback texts, and
   the image when the image call produced one.
   */
  lemma FailedCopyStillMakesPoster(response: RemoteOutcome<CopyJson>, shopType: ShopType, image: Option<string>, id: string, now: string)
    requires !response.Parsed?
    ensures ComposePoster(GenerateMarketingCopy(response, shopType), image, id, now) ==
      Some(Poster(id, "Big Sale!", "Limited time offer",
        "Best deals at your local " + ShopTypeLabel(shopType) + ". Don't miss out!",
        "#3b82f6", ImageUrl(image), now))
  {
  }

  /** A generation that ends with a poster from a parsed copy and no image shows no image but all the text. */
  lemma MissingImageStillMakesPoster(st: MarketingState, copy: CopyJson, id: string, now: string)
    requires st.topic != "" && copy.CopyObject?
    ensures var r := HandleGenerate(st, copy, None, id, now);
      r.poster.Some? && r.poster.value.imageUrl.None? && !r.isGenerating
  {
  }
}
