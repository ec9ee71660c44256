/**
 * The command line: the EAN and price checks made before any work, and the
 * exit status of a run.
 */
module Cli {
  import opened Wrappers
  import opened PriceFormat
  import opened ProductLookup
  import opened LabelLayout
  import opened LabelComposer

  /** The parsed arguments; the output path is not modelled (nothing is written). */
  datatype Args = Args(
    ean: string, price: int, lang: string, priceFormat: Template,
    name: Option<string>, producer: Option<string>)

  datatype UsageError =
    | BadEan        // "EAN must be exactly 13 digits"
    | NegativePrice // "Price must be non-negative"

  const ExitOk := 0
  const ExitFailure := 1
  const ExitUsage := 2

  /** An EAN is accepted when it is exactly 13 characters, each a digit. */
  predicate ValidEan(ean: string) {
    AllDigits(ean) && |ean| == 13
  }

  /** The checks of main, in order: the EAN first, then the price. */
  function Validate(args: Args): (r: Option<UsageError>)
    ensures r.None? <==> ValidEan(args.ean) && args.price >= 0
    ensures r == Some(BadEan) <==> !ValidEan(args.ean)
    ensures r == Some(NegativePrice) <==> ValidEan(args.ean) && args.price < 0
  {
    if !AllDigits(args.ean) || |args.ean| != 13 then Some(BadEan)
    else if args.price < 0 then Some(NegativePrice)
    else None
  }

  /** The usage examples: wrong length and a non-digit are refused, a real code is not. */
  lemma EanExamples()
    ensures !ValidEan("123") && !ValidEan("12345678901234") && !ValidEan("123456789012a")
    ensures ValidEan("5449000000996")
  {
    assert !IsDigit("123456789012a"[12]);
  }

  /**
   * main: a usage error exits 2 before the service is asked anything; a
   * failure of create_label exits 1; a label exits 0.
   */
  method Run(service: ProductService, args: Args, measure: (nat, string) -> Extent)
    returns (exitCode: int, made: Option<Label>)
    modifies service
    ensures exitCode == ExitUsage <==> Validate(args).Some?
    ensures exitCode == ExitUsage ==> service.requests == old(service.requests) && made.None?
    ensures exitCode != ExitUsage ==>
      var result := LabelFor(args.ean, args.price, args.priceFormat, args.name, args.producer, measure,
                             service.answer(ProductUrl(args.ean, args.lang)));
      service.requests == old(service.requests)
        + (if NeedsLookup(args.name, args.producer) then [ProductUrl(args.ean, args.lang)] else []) &&
      (exitCode == ExitOk <==> result.Success?) &&
      (exitCode == ExitFailure <==> result.Failure?) &&
      made == (if result.Success? then Some(result.value) else None)
  {
    if Validate(args).Some? {
      return ExitUsage, None;
    }
    var result := CreateLabel(service, args.ean, args.price, args.lang, args.priceFormat,
                              args.name, args.producer, measure);
    if result.Failure? {
      return ExitFailure, None;
    }
    return ExitOk, Some(result.value);
  }
}
