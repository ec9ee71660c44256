/**
 * Product lookup against the Open Food Facts service: which host and URL are
 * asked, and how the answer becomes a product record. The HTTP exchange itself
 * is an input here (see LabelComposer.ProductService).
 */
module ProductLookup {
  import opened Wrappers

  const ServiceDomain := ".openfoodfacts.org"
  /** The global dataset, used when no language or the language "world" is given. */
  const WorldHost := "world.openfoodfacts.org"
  const DefaultName := "Unknown Product"
  const DefaultProducer := "Unknown Brand"

  /** The record the label is drawn from. */
  datatype ProductRecord = ProductRecord(name: string, producer: string, ean: string)

  /** The "product" object of the JSON body; None is a key that is absent. */
  datatype ProductBody = ProductBody(productName: Option<string>, brands: Option<string>)

  /**
   * What the service answers: the HTTP status code and, from the JSON body,
   * the "status" field and the "product" object, each None when absent.
   */
  datatype Response = Response(statusCode: int, status: Option<int>, product: Option<ProductBody>)

  datatype LookupError =
    | HttpFailure(code: int)     // the HTTP status code was not 200
    | ProductNotFound(ean: string) // the body's status was not 1

  /** The host asked for a language or domain prefix. */
  function Host(language: string): (h: string)
    ensures |h| > |ServiceDomain| && h[|h| - |ServiceDomain|..] == ServiceDomain
  {
    if language != "" && language != "world" then language + ServiceDomain else WorldHost
  }

  /** Only the empty language and "world" select the global host. */
  lemma HostIsWorld(language: string)
    ensures Host(language) == WorldHost <==> language == "" || language == "world"
  {
    if language != "" && language != "world" {
      var h := Host(language);
      assert h[..|language|] == language;
      if |language| == 5 {
        assert h[..5] != WorldHost[..5];
      }
    }
  }

  /** Any other language is the host's prefix, so different languages ask different hosts. */
  lemma HostNamesLanguage(language: string, other: string)
    requires language != "" && language != "world"
    ensures Host(language)[..|language|] == language
    ensures Host(language)[|language|..] == ServiceDomain
    ensures Host(other) == Host(language) ==> other == language
  {
    if Host(other) == Host(language) {
      HostIsWorld(language);
      assert other != "" && other != "world";
      assert |other| == |language|;
      assert other == Host(other)[..|other|];
    }
  }

  /** The lookup URL for a code. */
  function ProductUrl(ean: string, language: string): (u: string)
    ensures var prefix := "https://" + Host(language) + "/api/v0/product/";
      |u| == |prefix| + |ean| + 5 && u[..|prefix|] == prefix &&
      u[|prefix|..|prefix| + |ean|] == ean && u[|prefix| + |ean|..] == ".json"
  {
    "https://" + Host(language) + "/api/v0/product/" + ean + ".json"
  }

  /** The URL is the host's API path with the code just before ".json"; it determines the code. */
  lemma UrlCarriesEan(ean: string, language: string, other: string)
    ensures var u := ProductUrl(ean, language);
      |u| >= |ean| + 5 && u[..8] == "https://" &&
      u[|u| - 5..] == ".json" && u[|u| - 5 - |ean|..|u| - 5] == ean
    ensures |other| == |ean| && ProductUrl(other, language) == ProductUrl(ean, language) ==> other == ean
  {
    var u := ProductUrl(ean, language);
    var base := "https://" + Host(language) + "/api/v0/product/";
    assert u == base + ean + ".json";
    assert u[|u| - 5 - |ean|..|u| - 5] == ean;
    if |other| == |ean| && ProductUrl(other, language) == u {
      var v := ProductUrl(other, language);
      assert v == base + other + ".json";
      assert v[|v| - 5 - |other|..|v| - 5] == other;
    }
  }

  /**
   * fetch_product_info after the HTTP GET: a status code other than 200 or a
   * body status other than 1 fails; otherwise the record takes the product's
   * name and brands, or the fixed defaults when they are absent, and the code asked for.
   */
  function ReadProduct(ean: string, r: Response): (res: Result<ProductRecord, LookupError>)
    ensures r.statusCode != 200 ==> res == Failure(HttpFailure(r.statusCode))
    ensures r.statusCode == 200 && r.status != Some(1) ==> res == Failure(ProductNotFound(ean))
    ensures res.Success? <==> r.statusCode == 200 && r.status == Some(1)
    ensures res.Success? ==> res.value.ean == ean
  {
    if r.statusCode != 200 then Failure(HttpFailure(r.statusCode))
    else if r.status != Some(1) then Failure(ProductNotFound(ean))
    else
      var body := if r.product.Some? then r.product.value else ProductBody(None, None);
      Success(ProductRecord(
        if body.productName.Some? then body.productName.value else DefaultName,
        if body.brands.Some? then body.brands.value else DefaultProducer,
        ean))
  }

  /**
   * On success each field is the one in the body when present and the default
   * only when absent; a body without a product object gives both defaults.
   */
  lemma ReadProductFields(ean: string, r: Response)
    requires r.statusCode == 200 && r.status == Some(1)
    ensures var rec := ReadProduct(ean, r).value;
      (r.product.Some? && r.product.value.productName.Some? ==> rec.name == r.product.value.productName.value) &&
      (r.product.Some? && r.product.value.brands.Some? ==> rec.producer == r.product.value.brands.value) &&
      (r.product.None? || r.product.value.productName.None? ==> rec.name == DefaultName) &&
      (r.product.None? || r.product.value.brands.None? ==> rec.producer == DefaultProducer)
  {
  }
}
