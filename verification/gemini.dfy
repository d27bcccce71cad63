/**
 Post-processing of the three remote generation calls.  The calls themselves
 are not modelled: their outcome is an input.  Every failure is absorbed here:
 extraction degrades to a single error row, copy to fixed fallback text, and
 the image to "no image".
 */
module Gemini {
  import opened Wrappers
  import opened Types

  /** How a remote call ended: it threw, it returned no text, its text was not JSON, or it parsed. */
  datatype RemoteOutcome<T> = RemoteError | EmptyText | Unparsable | Parsed(value: T)

  /** One element of the response's `items`; a missing field is None. */
  datatype RawItem = RawItem(date: Option<string>, description: Option<string>, amount: JsNumber)

  /** The parsed extraction response: the JSON literal `null`, or an object whose `items` may be missing. */
  datatype ExtractionJson = ExtractionNull | ExtractionObject(items: Option<seq<RawItem>>)

  /** The single row returned in place of any extraction failure. */
  const ErrorItem: KhataItem := KhataItem("1", "2023-10-25", "Error Reading Image", 0.0)

  const UnknownDescription: string := "Unknown Item"

  /** One response element made into a row: empty date becomes today, empty description a placeholder. */
  function NormaliseItem(raw: RawItem, id: string, today: string): (item: KhataItem)
    ensures item.id == id
    ensures item.description != ""
    ensures today != "" ==> item.date != ""
    ensures item.amount == OrZero(raw.amount)
    ensures raw.date.None? || raw.date.value == "" ==> item.date == today
    ensures raw.description.None? || raw.description.value == "" ==> item.description == UnknownDescription
    ensures raw.description.Some? && raw.description.value != "" ==> item.description == raw.description.value
    ensures raw.date.Some? && raw.date.value != "" ==> item.date == raw.date.value
  {
    KhataItem(id, OrText(raw.date, today), OrText(raw.description, UnknownDescription), OrZero(raw.amount))
  }

  /** Every response element made into a row, in order; the i-th gets the generator's id number `next + i`. */
  function NormaliseFrom(raws: seq<RawItem>, today: string, newId: nat -> string, next: nat): (items: seq<KhataItem>)
    ensures |items| == |raws|
    ensures forall i :: 0 <= i < |raws| ==> items[i] == NormaliseItem(raws[i], newId(next + i), today)
    decreases |raws|
  {
    if |raws| == 0 then []
    else [NormaliseItem(raws[0], newId(next), today)] + NormaliseFrom(raws[1..], today, newId, next + 1)
  }

  /** The response's item list, or no items when the field is missing. */
  function ResponseItems(data: ExtractionJson): seq<RawItem>
    requires data.ExtractionObject?
  {
    data.items.GetOr([])
  }

  /** A response that reaches the mapping step: it parsed, and to an object. */
  predicate ExtractionSucceeded(response: RemoteOutcome<ExtractionJson>) {
    response.Parsed? && response.value.ExtractionObject?
  }

  /**
   extractKhataData after the remote call.  `today` stands for the current
   date string and `newId` for the id generator.
   */
  function ExtractKhataData(response: RemoteOutcome<ExtractionJson>, today: string, newId: nat -> string): (items: seq<KhataItem>)
    ensures !ExtractionSucceeded(response) ==> items == [ErrorItem]
    ensures ExtractionSucceeded(response) ==> |items| == |ResponseItems(response.value)|
    ensures ExtractionSucceeded(response) ==>
      forall i :: 0 <= i < |items| ==> items[i] == NormaliseItem(ResponseItems(response.value)[i], newId(i), today)
  {
    if ExtractionSucceeded(response) then NormaliseFrom(ResponseItems(response.value), today, newId, 0)
    else [ErrorItem]
  }

  /** The only way to get no rows back is a successful response with no items; failures are never silent. */
  lemma EmptyOnlyWhenNothingListed(response: RemoteOutcome<ExtractionJson>, today: string, newId: nat -> string)
    ensures ExtractKhataData(response, today, newId) == [] <==>
      ExtractionSucceeded(response) && ResponseItems(response.value) == []
  {
  }

  /** Every extracted row has a description, and a date when today's date is known. */
  lemma ExtractedRowsAreLabelled(response: RemoteOutcome<ExtractionJson>, today: string, newId: nat -> string)
    ensures var items := ExtractKhataData(response, today, newId);
      forall i :: 0 <= i < |items| ==> items[i].description != "" && (today != "" ==> items[i].date != "")
  {
  }

  /** With an injective id generator the extracted rows have distinct ids, as the editor needs. */
  lemma ExtractedIdsDistinct(response: RemoteOutcome<ExtractionJson>, today: string, newId: nat -> string)
    requires forall a: nat, b: nat :: newId(a) == newId(b) ==> a == b
    ensures DistinctIds(ExtractKhataData(response, today, newId))
  {
  }

  /** The parsed copy response: the JSON literal `null`, or an object with optional fields. */
  datatype CopyJson =
    | CopyNull
    | CopyObject(headline: Option<string>, subline: Option<string>, body: Option<string>, colorTheme: Option<string>)

  const FallbackColor: string := "#3b82f6"

  /** The copy used when the copy call fails; its body names the shop type. */
  function FallbackCopy(shopType: ShopType): CopyJson {
    CopyObject(
      Some("Big Sale!"),
      Some("Limited time offer"),
      Some("Best deals at your local " + ShopTypeLabel(shopType) + ". Don't miss out!"),
      Some(FallbackColor))
  }

  /** generateMarketingCopy after the remote call: the parsed JSON as is, or the fallback. */
  function GenerateMarketingCopy(response: RemoteOutcome<CopyJson>, shopType: ShopType): (copy: CopyJson)
    ensures response.Parsed? ==> copy == response.value
    ensures !response.Parsed? ==> copy.CopyObject? && copy.colorTheme == Some(FallbackColor)
    ensures !response.Parsed? ==> copy.headline == Some("Big Sale!") && copy.subline == Some("Limited time offer")
  {
    if response.Parsed? then response.value else FallbackCopy(shopType)
  }

  /** The fallback body embeds the shop type's label after a fixed lead-in. */
  lemma FallbackBodyNamesShop(shopType: ShopType)
    ensures var body := FallbackCopy(shopType).body.value;
      var name := ShopTypeLabel(shopType);
      |body| > 25 + |name| && body[25..25 + |name|] == name
  {
  }

  datatype InlineData = InlineData(data: string)

  datatype Part = Part(inlineData: Option<InlineData>)

  datatype Content = Content(parts: Option<seq<Part>>)

  datatype Candidate = Candidate(content: Option<Content>)

  datatype ImageResponse = ImageResponse(candidates: Option<seq<Candidate>>)

  /** The parts of the first candidate's content; none when any link of that chain is missing. */
  function PartsOf(response: ImageResponse): seq<Part> {
    match response.candidates
    case None => []
    case Some(cs) =>
      if |cs| == 0 || cs[0].content.None? || cs[0].content.value.parts.None? then []
      else cs[0].content.value.parts.value
  }

  /** Part `i` is the first part that carries inline data. */
  predicate FirstInlineAt(parts: seq<Part>, i: int) {
    && 0 <= i < |parts|
    && parts[i].inlineData.Some?
    && forall j :: 0 <= j < i ==> parts[j].inlineData.None?
  }

  /**
   generateMarketingImage after the remote call (None: the call threw): the
   data of the first part with inline data, scanning the parts in order.
   */
  method GenerateMarketingImage(response: Option<ImageResponse>) returns (data: Option<string>)
    ensures response.None? ==> data.None?
    ensures data.Some? ==> response.Some?
    ensures data.Some? ==> exists i ::
      FirstInlineAt(PartsOf(response.value), i) && PartsOf(response.value)[i].inlineData.value.data == data.value
    ensures response.Some? && data.None? ==>
      forall i :: 0 <= i < |PartsOf(response.value)| ==> PartsOf(response.value)[i].inlineData.None?
  {
    if response.None? {
      return None;
    }
    var parts := PartsOf(response.value);
    var k := 0;
    while k < |parts|
      invariant 0 <= k <= |parts|
      invariant forall j :: 0 <= j < k ==> parts[j].inlineData.None?
    {
      if parts[k].inlineData.Some? {
        assert FirstInlineAt(parts, k);
        return Some(parts[k].inlineData.value.data);
      }
      k := k + 1;
    }
    return None;
  }
}
