/**
 * create_label: resolve the product record (lookup and overrides), format the
 * price, measure the texts and lay the label out.
 */
module LabelComposer {
  import opened Wrappers
  import opened PriceFormat
  import opened ProductLookup
  import opened LabelLayout

  /**
   * The product service as the program sees it: what it answers for each URL,
   * and the URLs requested so far (requests.get).
   */
  class ProductService {
    const answer: string -> Response
    var requests: seq<string>

    constructor (answer: string -> Response)
      ensures this.answer == answer && requests == []
    {
      this.answer := answer;
      requests := [];
    }

    method Get(url: string) returns (r: Response)
      modifies this
      ensures requests == old(requests) + [url]
      ensures r == answer(url)
    {
      requests := requests + [url];
      r := answer(url);
    }
  }

  /** Python truthiness of an optional override: given and not empty. */
  predicate Truthy(o: Option<string>)
    ensures Truthy(o) <==> o != None && o != Some("")
  {
    o.Some? && o.value != ""
  }

  /** The lookup is skipped only when both overrides are truthy. */
  predicate NeedsLookup(customName: Option<string>, customProducer: Option<string>)
    ensures NeedsLookup(customName, customProducer) <==>
      customName in {None, Some("")} || customProducer in {None, Some("")}
  {
    !(Truthy(customName) && Truthy(customProducer))
  }

  /**
   * The product record create_label draws, given the answer the service
   * gives for this code's URL (ignored when no lookup is made).
   */
  function ResolveRecord(ean: string, customName: Option<string>, customProducer: Option<string>,
                         answer: Response): (r: Result<ProductRecord, LookupError>)
    ensures !NeedsLookup(customName, customProducer) ==> r.Success?
    ensures r.Failure? ==> ReadProduct(ean, answer).Failure? && r.error == ReadProduct(ean, answer).error
    ensures r.Success? ==> r.value.ean == ean
  {
    if !NeedsLookup(customName, customProducer) then
      Success(ProductRecord(customName.value, customProducer.value, ean))
    else match ReadProduct(ean, answer)
      case Failure(e) => Failure(e)
      case Success(rec) =>
        var rec' := if Truthy(customName) then rec.(name := customName.value) else rec;
        Success(if Truthy(customProducer) then rec'.(producer := customProducer.value) else rec')
  }

  /** With both overrides truthy the service's answer cannot matter: the record is the inputs. */
  lemma FullOverrideIgnoresService(ean: string, name: string, producer: string, a1: Response, a2: Response)
    requires name != "" && producer != ""
    ensures ResolveRecord(ean, Some(name), Some(producer), a1) == ResolveRecord(ean, Some(name), Some(producer), a2)
    ensures ResolveRecord(ean, Some(name), Some(producer), a1) == Success(ProductRecord(name, producer, ean))
  {
  }

  /**
   * Otherwise the lookup decides success and failure, and each truthy override
   * replaces only its own field of the looked-up record.
   */
  lemma PartialOverride(ean: string, customName: Option<string>, customProducer: Option<string>, answer: Response)
    requires NeedsLookup(customName, customProducer)
    ensures var r, looked := ResolveRecord(ean, customName, customProducer, answer), ReadProduct(ean, answer);
      r.Success? == looked.Success? &&
      (r.Failure? ==> r.error == looked.error) &&
      (r.Success? ==>
        r.value.name == (if Truthy(customName) then customName.value else looked.value.name) &&
        r.value.producer == (if Truthy(customProducer) then customProducer.value else looked.value.producer) &&
        r.value.ean == ean)
  {
  }

  /** Why no label is made. */
  datatype LabelError = LookupFailed(lookup: LookupError) | FormatFailed(format: FormatError)

  /** Everything painted on the label, and where. */
  datatype Label = Label(record: ProductRecord, eanText: string, priceText: string, layout: Layout)

  function EanText(ean: string): (t: string)
    ensures |t| == |ean| + 5 && t[..5] == "EAN: " && t[5..] == ean
  {
    "EAN: " + ean
  }

  /**
   * The label for given inputs, with measure(fontPx, text) the text box the
   * font of that size gives, and answer the service's reply to the lookup URL.
   * The lookup error is reported before a template error, as the source orders them.
   */
  function LabelFor(ean: string, price: nat, template: Template,
                    customName: Option<string>, customProducer: Option<string>,
                    measure: (nat, string) -> Extent, answer: Response): (r: Result<Label, LabelError>)
    // a failed lookup fails the label, before the template is looked at
    ensures var rec := ResolveRecord(ean, customName, customProducer, answer);
      rec.Failure? ==> r == Failure(LookupFailed(rec.error))
    ensures var rec := ResolveRecord(ean, customName, customProducer, answer);
      rec.Success? && Format(price, template).Failure? ==> r == Failure(FormatFailed(Format(price, template).error))
    ensures r.Success? <==>
      ResolveRecord(ean, customName, customProducer, answer).Success? && Format(price, template).Success?
    // a label draws the resolved record and the formatted price, laid out from their measured boxes
    ensures r.Success? ==>
      var rec := ResolveRecord(ean, customName, customProducer, answer).value;
      r.value.record == rec && r.value.eanText == "EAN: " + ean &&
      Format(price, template) == Success(r.value.priceText) &&
      r.value.layout == PlanLayout(Measured(measure(BodyFontPx, rec.name), measure(BodyFontPx, rec.producer),
                                            measure(BodyFontPx, EanText(ean)), measure(PriceFontPx, r.value.priceText)))
    ensures r.Success? ==> r.value.record.ean == ean && r.value.layout.height == HeightPx && r.value.layout.width >= MinWidth
  {
    match ResolveRecord(ean, customName, customProducer, answer)
    case Failure(e) => Failure(LookupFailed(e))
    case Success(rec) =>
      match Format(price, template)
      case Failure(e) => Failure(FormatFailed(e))
      case Success(priceText) =>
        var m := Measured(measure(BodyFontPx, rec.name), measure(BodyFontPx, rec.producer),
                          measure(BodyFontPx, EanText(ean)), measure(PriceFontPx, priceText));
        Success(Label(rec, EanText(ean), priceText, PlanLayout(m)))
  }

  /** A label with fully overridden text exists whatever the service would answer, if its template is good. */
  lemma FullOverrideLabel(ean: string, price: nat, template: Template, name: string, producer: string,
                          measure: (nat, string) -> Extent, a1: Response, a2: Response)
    requires name != "" && producer != ""
    ensures LabelFor(ean, price, template, Some(name), Some(producer), measure, a1)
         == LabelFor(ean, price, template, Some(name), Some(producer), measure, a2)
    ensures LabelFor(ean, price, template, Some(name), Some(producer), measure, a1).Success?
        <==> UsesKnownFields(template)
  {
  }

  /**
   * create_label without the image I/O. The service is asked for this code's
   * URL exactly when an override is missing; the record is patched in place
   * by the overrides; the layout is measured, then painted.
   */
  method CreateLabel(service: ProductService, ean: string, price: nat, language: string, template: Template,
                     customName: Option<string>, customProducer: Option<string>,
                     measure: (nat, string) -> Extent)
    returns (result: Result<Label, LabelError>)
    modifies service
    ensures service.requests == old(service.requests)
      + (if NeedsLookup(customName, customProducer) then [ProductUrl(ean, language)] else [])
    ensures result == LabelFor(ean, price, template, customName, customProducer, measure,
                               service.answer(ProductUrl(ean, language)))
  {
    var info: ProductRecord;
    if Truthy(customName) && Truthy(customProducer) {
      info := ProductRecord(customName.value, customProducer.value, ean);
    } else {
      var response := service.Get(ProductUrl(ean, language));
      var looked := ReadProduct(ean, response);
      if looked.Failure? {
        return Failure(LookupFailed(looked.error));
      }
      info := looked.value;
      // partial override
      if Truthy(customName) {
        info := info.(name := customName.value);
      }
      if Truthy(customProducer) {
        info := info.(producer := customProducer.value);
      }
    }

    var formatted := Format(price, template);
    if formatted.Failure? {
      return Failure(FormatFailed(formatted.error));
    }
    var priceText := formatted.value;
    var eanText := EanText(ean);

    var m := Measured(measure(BodyFontPx, info.name), measure(BodyFontPx, info.producer),
                      measure(BodyFontPx, eanText), measure(PriceFontPx, priceText));
    var layout, _ := ComposeLayout(m);
    result := Success(Label(info, eanText, priceText, layout));
  }
}
