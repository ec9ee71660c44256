# Price label generator — Dafny model

A model of `price_label.py`, a command-line tool that prints a product label
from an EAN-13 code and a price in minor currency units (cents). The tool
looks the product up on Open Food Facts, or takes the name and producer from
the command line. It formats the price through a template, measures the
texts and lays out a 384-pixel-high canvas. On the left are the name, the
producer, the line "EAN: <code>" and the barcode. On the right is the price,
with a separator line between the two regions.

The model covers the parts of that pipeline that are not I/O:

- `PriceFormat` (price_format.dfy): `format_price`. It builds `str(p // 100)`,
  the two-digit `p % 100` and the `{price}` text, and substitutes them into a
  template. The template is already split into literal text and `{name}`
  placeholders. A name other than `maj`, `min` or `price` fails, as
  `str.format` raises on it.
- `ProductLookup` (product_lookup.dfy): the host and URL that
  `fetch_product_info` asks for, and how the HTTP status, the body's `status`
  field and the `product` object become a record or an error.
- `LabelLayout` (label_layout.dfy): the pixel constants of `create_label` and
  its two passes. The measure pass runs the `y_offset` cursor and sizes the
  regions. The paint pass runs the `y_pos` cursor and places every element.
  `PlanLayout` states the resulting geometry. `ComposeLayout` is the
  step-by-step version, proved equal to it.
- `LabelComposer` (label_composer.dfy): `create_label` without image I/O.
  The product service is a class whose `Get` records each URL requested, so
  the model states when a lookup happens. The looked-up record is patched
  field by field by the overrides.
- `Cli` (cli.dfy): the EAN and price checks of `main` and its exit codes.
- `Wrappers` (wrappers.dfy): `Option` and `Result`.

An override counts as given only when it is truthy in Python's sense: present
and non-empty. `--name ""` therefore does not skip the lookup, although it
was supplied; the model follows the code's truthiness test.

## Model

| member | source | states |
|---|---|---|
| `PriceFormat.Decimal` | price_label.py:24-26 | the text of the major units is canonical decimal: digits only, and a leading '0' only for zero itself |
| `PriceFormat.DecimalRoundTrip` | price_label.py:24-26 | reading the decimal text of n back gives n |
| `PriceFormat.CanonicalRoundTrip` | price_label.py:26 | every canonical digit string is the decimal text of its own value, so the rendering is a bijection |
| `PriceFormat.TwoDigits` | price_label.py:25-27 | the zero-padded minor units are exactly two digits whose value is p % 100 |
| `PriceFormat.TwoDigitsOfValue` | price_label.py:25-27 | every two-digit string is the padded rendering of its value |
| `PriceFormat.PriceString` | price_label.py:24-26 | the {price} text is canonical digits, a dot and exactly two digits |
| `PriceFormat.PriceRoundTrip` | price_label.py:24-26 | the price text has the shape digits "." two digits, and maj * 100 + min read from it equals p |
| `PriceFormat.ParsedPriceRendersBack` | price_label.py:24-26 | conversely, every such price text is the rendering of the price it denotes |
| `PriceFormat.FieldText` | price_label.py:27 | a placeholder has a value exactly when its name is maj, min or price |
| `PriceFormat.PieceText` | price_label.py:27 | a template piece fails to substitute exactly when it is a placeholder with an unknown name |
| `PriceFormat.Format` | price_label.py:27 | for a template of plain placeholder names, formatting succeeds exactly when every placeholder is maj, min or price, and a failure names an unknown placeholder of the template |
| `PriceFormat.FormatAppend` | price_label.py:27 | formatting a concatenated template concatenates the texts, and the leftmost error wins |
| `PriceFormat.DefaultFormat` | price_label.py:13-27 | the default template '${price}' yields "$" plus the price text, which reads back as p |
| `PriceFormat.MajMinRebuild` | price_label.py:24-27 | {min} is two digits and the values of {maj} and {min} rebuild the price |
| `PriceFormat.DefaultFormatExamples` | price_label.py:13-27 | with the default template 0 gives "$0.00" and 299 gives "$2.99" |
| `PriceFormat.TemplateExample` | price_label.py:22 | the template '{maj}.{min} zł' with 150 gives "1.50 zł" |
| `ProductLookup.Host` | price_label.py:38-41 | every host ends with ".openfoodfacts.org" after a non-empty prefix |
| `ProductLookup.HostIsWorld` | price_label.py:38-41 | the world host is used exactly when the language is empty or "world" |
| `ProductLookup.HostNamesLanguage` | price_label.py:38-39 | any other language is the host's prefix before ".openfoodfacts.org", so distinct languages ask distinct hosts |
| `ProductLookup.ProductUrl` | price_label.py:43 | the URL is "https://", the host, "/api/v0/product/", the code and ".json", in that order |
| `ProductLookup.UrlCarriesEan` | price_label.py:43 | the URL starts with "https://" and ends with the code followed by ".json"; for codes of one length it determines the code |
| `ProductLookup.ReadProduct` | price_label.py:46-60 | HTTP status other than 200 fails with that code; otherwise a body status other than 1 fails as not found; success exactly when both hold, carrying the code asked for |
| `ProductLookup.ReadProductFields` | price_label.py:54-59 | on success, name and producer come from the body when present and are "Unknown Product" / "Unknown Brand" only when absent |
| `LabelLayout.ContentWidth` | price_label.py:184 | the left content width is at least each text width and the barcode width, and equals one of them |
| `LabelLayout.StackTopStep` | price_label.py:157-176 | each stack position is the previous one plus that element's height and the 8-pixel gap |
| `LabelLayout.PlanLayout` | price_label.py:107-224 | height 384; left width = widest content + 48, right width = price width + 48, width = 40 + left + right, at least 376; the separator at 40 + left width; every left element starts at x 64 and ends a padding before the separator; the separator lies strictly between x 64 and the price; the price ends a padding before the right edge and is centred vertically to within a pixel; the name, producer, EAN line and barcode follow each other by height plus gap |
| `LabelLayout.BarcodeTop` | price_label.py:200-216 | the barcode is pasted at 24 + the sum of (height + 8) over the three text lines |
| `LabelLayout.ComposeLayout` | price_label.py:157-224 | the measure-then-paint computation gives exactly the planned layout, and the measure cursor ends where the paint cursor pastes the barcode |
| `LabelComposer.ProductService.Get` | price_label.py:44 | one GET: the URL is added to the requests and the service's answer for it is returned |
| `LabelComposer.Truthy` | price_label.py:117 | an override counts exactly when it is neither None nor the empty string |
| `LabelComposer.NeedsLookup` | price_label.py:117-124 | the lookup is made exactly when either override is None or empty |
| `LabelComposer.ResolveRecord` | price_label.py:117-129 | with both overrides truthy the record always exists; any failure is the lookup's failure; the record carries the input code |
| `LabelComposer.FullOverrideIgnoresService` | price_label.py:117-122 | with both overrides truthy the service's answer does not matter and the record is (name, producer, code) |
| `LabelComposer.PartialOverride` | price_label.py:123-129 | otherwise the lookup decides success, and each truthy override replaces only its own field |
| `LabelComposer.EanText` | price_label.py:172 | the EAN line is "EAN: " followed by the code |
| `LabelComposer.LabelFor` | price_label.py:117-224 | a failed record resolution fails the label with the lookup error; a resolved record with a bad template fails with the format error; otherwise the label carries the resolved record, the "EAN: " line and the formatted price, laid out by PlanLayout from their measured boxes, 384 high and at least 376 wide |
| `LabelComposer.FullOverrideLabel` | price_label.py:117-132 | with both overrides truthy the label does not depend on the service and exists exactly when the template uses only known placeholders |
| `LabelComposer.CreateLabel` | price_label.py:92-224 | the service is asked for this code's URL exactly when an override is missing; the result is the specified label, or the lookup error before the format error |
| `Cli.Validate` | price_label.py:258-264 | input is accepted exactly when the code is 13 digits and the price is at least 0; the EAN error is reported exactly when the code is not 13 digits, and the price error exactly when the code is valid and the price is negative |
| `Cli.EanExamples` | price_label.py:259-260 | "123", "12345678901234" and "123456789012a" are refused; "5449000000996" is accepted |
| `Cli.Run` | price_label.py:256-273 | a usage error exits 2 with no request and no label; otherwise the exit code is 0 exactly when a label is made and 1 when create_label fails |

## Left out

- The HTTP GET and JSON decoding (price_label.py:44, 49): the service's answer is a parameter of `ProductService`. `ProductService.Get` always returns an answer. So the model has no path where `requests.get` itself raises (a connection error or a timeout) and `main` exits 1 (price_label.py:269-271).
- The JSON `status` field is an optional integer. A JSON `true` or `1.0`, which Python also compares equal to 1, is not modelled. Neither is a body that is not an object.
- A `product`, `product_name` or `brands` key that is present with the value null is not modelled. Python would fail on a null `product`, and would carry `None` into the record for the other two.
- Barcode generation through python-barcode's `EAN13` and `ImageWriter`, and the resize to 240 x 80 (price_label.py:63-89, 181). This is library code. Any exception raised by `EAN13` (price_label.py:75) is therefore not modelled, and the barcode always occupies 240 x 80 pixels.
- Text measurement with `textbbox` is the parameter `measure(fontPx, text)`: the fonts are 40 px for the left column and 96 px for the price. The font fallback chain is not modelled (price_label.py:143-154).
- Drawing, pasting and saving the image, the DPI metadata `DPI * 25.4`, and the printed millimetre sizes (price_label.py:196-230). These are image I/O, floating point and console output. The output path is not in `Cli.Args` for the same reason.
- argparse parsing, including parsing the price as an int and the usage text (price_label.py:233-256).
- Template parsing: the template is already split into literal text and placeholders. Format specifications and conversions inside a placeholder (`{maj:>5}`, `{price!r}`) are not modelled, and neither are escaped braces before splitting.
- PriceFormat.Format: `str.format` also lets a placeholder read an attribute or an index of a supplied value. For example, `{maj.real}` gives the major units and `{min[0]}` gives the tens digit of the minor units. Both succeed in the source, but the model reads such a name as unknown and fails. Its success-iff-known-names contract holds only for templates of plain names.
- Cli.Validate: `str.isdigit()` also accepts non-ASCII Unicode digits; the model accepts only '0'..'9'.
- The price is a natural number in `PriceFormat` and `LabelComposer`. `main` rejects negative prices before `create_label`, so `format_price` never sees one.
