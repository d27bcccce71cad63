/**
 The records and enumerations the application passes between its screens,
 together with the two JavaScript "falsy fallback" idioms the code relies on.
 */
module Types {
  import opened Wrappers

  /** One ledger line, as extracted from a photo or typed in by the shopkeeper. */
  datatype KhataItem = KhataItem(id: string, date: string, description: string, amount: real)

  /** The GST breakdown of one bill: a subtotal and two 9% components. */
  datatype TaxDetails = TaxDetails(subtotal: real, cgst: real, sgst: real, total: real)

  /** A saved bill: its items and the breakdown that was accepted for them. */
  datatype KhataRecord = KhataRecord(id: string, timestamp: string, items: seq<KhataItem>, taxDetails: TaxDetails)

  datatype ShopType = General | Grocery | Medical | Electronics | Restaurant | Hardware

  /** The string value each shop type carries; it is what the prompts and the fallback copy embed. */
  function ShopTypeLabel(t: ShopType): string {
    match t
    case General => "General Store"
    case Grocery => "Kirana / Grocery"
    case Medical => "Pharmacy / Medical"
    case Electronics => "Electronics"
    case Restaurant => "Restaurant / Cafe"
    case Hardware => "Hardware"
  }

  /** The labels tell the shop types apart: a stored label names exactly one type. */
  lemma ShopTypeLabelInjective(a: ShopType, b: ShopType)
    ensures ShopTypeLabel(a) == ShopTypeLabel(b) <==> a == b
  {
  }

  datatype User = User(username: string, name: string, shopType: ShopType)

  datatype Poster = Poster(
    id: string,
    headline: string,
    subline: string,
    body: string,
    colorTheme: string,
    imageUrl: Option<string>,
    createdAt: string)

  datatype AppStep = Login | MainApp | Upload | Processing | Verification | TaxAnalysis | FinalPreview

  datatype AppView = DashboardView | ReportsView | MarketingView | SettingsView

  datatype PipelineStage = Idle | YoloDetection | Cropping | TrocrRecognition | LlmStructuring | DbFilling | Complete

  /** The outcome of a JavaScript numeric coercion (`Number(x)`, `parseFloat(x)`): NaN or a number. */
  datatype JsNumber = NaN | Num(value: real)

  /** `n || 0`: NaN is falsy and becomes 0; every other number is kept (0 stays 0). */
  function OrZero(n: JsNumber): real {
    match n
    case NaN => 0.0
    case Num(v) => v
  }

  /** `s || d` on an optional string: absent and empty text are falsy and fall back to `d`. */
  function OrText(s: Option<string>, d: string): string {
    if s.Some? && s.value != "" then s.value else d
  }

  lemma OrTextNonEmpty(s: Option<string>, d: string)
    requires d != ""
    ensures OrText(s, d) != ""
  {
  }

  function RecordTotal(r: KhataRecord): real {
    r.taxDetails.total
  }

  /** The record's tax as the reports show it: the two components added. */
  function RecordTax(r: KhataRecord): real {
    r.taxDetails.cgst + r.taxDetails.sgst
  }

  function RecordSubtotal(r: KhataRecord): real {
    r.taxDetails.subtotal
  }

  /** Some item of the list carries this id. */
  predicate HasId(items: seq<KhataItem>, id: string) {
    exists i :: 0 <= i < |items| && items[i].id == id
  }

  /** No two items of the list share an id (the editor finds its rows by id). */
  predicate DistinctIds(items: seq<KhataItem>) {
    forall i, j :: 0 <= i < j < |items| ==> items[i].id != items[j].id
  }
}
