# Dialogflow CX reply normaliser, text layout and product card

This project models the part of the shopping-assistant chat that turns a
Dialogflow CX reply into what the chat window shows:

- **the normaliser** (`app/utils/dialogflowParser.ts`). Dialogflow sends a
  self-describing value tree in the shape of `google.protobuf.Value`: a
  value may be a plain string or array, or a wrapper with a `kind` tag and
  one of `stringValue`, `boolValue`, `listValue.values` or
  `structValue.fields`. Four total accessors read that tree with JavaScript
  truthiness. Two walkers parse category paths and keywords. A gated
  builder turns one rich-content `info` item into a product with documented
  defaults. A message → group → item walker collects every product in
  order. A finder picks the first text line of the first text prompt, or a
  fixed fallback sentence.
- **the text layout** (`src/utils/textFormatter.tsx`). `formatResponseText`
  splits a reply into lines and drops blank ones. Lines marked `- ` or `• `
  become items of bullet lists; consecutive items share one list. Any other
  line becomes a paragraph, and it is a heading when it ends with a colon.
  `formatSimpleText` turns each line into a fragment with a line break after
  all but the last.
- **the product card helpers** (`app/components/ProductCard.tsx`). These are
  the delivery line, the category breadcrumb, the three keyword chips, the
  stock label and the image or its placeholder.

JavaScript values are the datatype `JsValue.JValue`. Property access on
anything but an object reads as `undefined`, and `null` and `undefined` are
one value (`JUndef`). The normaliser's functions are modelled as Dafny
functions. Its three nested `forEach` loops are a method
(`ExtractProductsFromDialogflowResponse`) plus three callback methods. These
are proved equal to the specification function `ExtractProducts`. The layout
pass of `formatResponseText` is a method with a loop and a callback method
(`FormatLine`). It is proved equal to a reference grouping `Group` of the
classified content lines. The lemmas then show three things about `Group`.
It is well grouped. It loses, adds and reorders no line. It is the only
well-grouped layout of those lines. `DialogflowWire` builds wrapped values
from plain data and proves the round trip
`ExtractProducts(EncodeReply(items of products)) == products`.

Where the code and its documentation differ, the model follows the code.
The code has a few points worth knowing:

- `extractStructValue` does not accept a plain object, only a wrapper with
  `structValue.fields`.
- A bare `false` is falsy and reads as absent. A wrapped `boolValue: false`
  survives.
- An empty first text line in the first text prompt gives the fallback.
  Later prompts are not searched.
- A reply written with plain objects, such as
  `[{responseType: "HANDLER_PROMPT", payload: {fields: {richContent: [[{type: "info", metadata: {title: "Hammer", availability: false}}]]}}}]`,
  yields no product under the code, because its item is not a wrapped
  struct (`DialogflowExamples.PlainHammerReply`). Even as a struct, its bare
  `availability: false` would read as absent and so become `true`. The
  worked hammer examples therefore encode the item with the wrapped shapes
  of `DialogflowWire`.

## Model

| member | source | states |
|---|---|---|
| DialogflowParser.ExtractStringValue | app/utils/dialogflowParser.ts:44-52 | never `""`; a plain string as is; a wrapper's `stringValue` whatever its `kind`; anything else absent |
| DialogflowParser.ExtractBoolValue | app/utils/dialogflowParser.ts:57-65 | a bare `true` as is, a bare `false` absent; a wrapper's `boolValue` (`false` included) whatever its `kind`; anything else absent |
| DialogflowParser.ExtractListValue | app/utils/dialogflowParser.ts:70-78 | total: a plain array unchanged, a wrapper's `listValue.values`, otherwise `[]` |
| DialogflowParser.ExtractStructValue | app/utils/dialogflowParser.ts:83-90 | present exactly when the value is an object with truthy `structValue.fields`, and then those fields |
| DialogflowParser.KindIsAdvisory | app/utils/dialogflowParser.ts:44-90 | retagging a wrapper's `kind` changes what none of the four accessors reads |
| DialogflowParser.CategoryOf | app/utils/dialogflowParser.ts:100-106 | a category's name and id are never empty; `'Unknown'`/`'unknown'` when absent, else the wrapped strings |
| DialogflowParser.ParseCategories | app/utils/dialogflowParser.ts:95-108 | one path per category group, one category per inner entry, nesting kept |
| DialogflowParser.ParseKeywords | app/utils/dialogflowParser.ts:113-116 | no longer than the list and no empty keyword |
| DialogflowParser.KeepStringsAppend | app/utils/dialogflowParser.ts:113-116 | keyword parsing keeps order across concatenation |
| DialogflowParser.KeepStringsExact | app/utils/dialogflowParser.ts:113-116 | all entries readable: every keyword kept in order; none readable: nothing kept |
| DialogflowParser.ExtractProductFromItem | app/utils/dialogflowParser.ts:121-164 | a product exactly when all three gates pass (struct item, `type` is `'info'`, struct `metadata`); it then carries the given id and has the shape of every built product |
| DialogflowParser.ProductFieldDefaults | app/utils/dialogflowParser.ts:136-157 | each field's source and fallback chain (`'Product'`, `'No description available'`, `'#'`, `''`, `true`, `'each'`) and the fixed delivery options |
| DialogflowParser.RichPrompts | app/utils/dialogflowParser.ts:179-181 | the filter keeps only truthy `HANDLER_PROMPT` messages with rich content, no more than it was given |
| DialogflowParser.ProductItems | app/utils/dialogflowParser.ts:207-211 | only items that pass the gates are kept |
| DialogflowParser.ProductsFromItems | app/utils/dialogflowParser.ts:204-212 | never more products than items |
| DialogflowParser.ExtractProductsFromDialogflowResponse | app/utils/dialogflowParser.ts:169-223 | the loop's result is `ExtractProducts`: the gated items' products in message, group, item order |
| DialogflowParser.CollectFromMessage | app/utils/dialogflowParser.ts:191-214 | the per-message callback appends the products of that message's groups, group by group |
| DialogflowParser.CollectFromGroup | app/utils/dialogflowParser.ts:199-213 | the per-group callback appends the products of that group's items, item by item |
| DialogflowParser.CollectFromItem | app/utils/dialogflowParser.ts:204-211 | the per-item callback appends the item's product exactly when it passes the gates |
| DialogflowParser.ProductsStep | app/utils/dialogflowParser.ts:207-211 | one more item adds its product, with the next id, exactly when it passes the gates |
| DialogflowParser.NonArrayYieldsNoProducts | app/utils/dialogflowParser.ts:173-176 | a reply that is not an array gives no products |
| DialogflowParser.ProductsComeFromItems | app/utils/dialogflowParser.ts:204-212 | every product comes from a walked item that passed the gates, carries its position's id and is well formed |
| DialogflowParser.ProductItemsAppend | app/utils/dialogflowParser.ts:204-212 | the gate filter keeps item order |
| DialogflowParser.FilteredMessageContributesNothing | app/utils/dialogflowParser.ts:179-181 | a message that fails the filter contributes no items |
| DialogflowParser.ResponseItemsAppend | app/utils/dialogflowParser.ts:191-214 | items of consecutive messages follow one another: message order is kept |
| DialogflowParser.RichPromptsAppend | app/utils/dialogflowParser.ts:179-181 | the message filter keeps order |
| DialogflowParser.RichPromptsOne | app/utils/dialogflowParser.ts:179-181 | one message is kept exactly when it passes the filter; with RichPromptsAppend this fixes the filter |
| DialogflowParser.ResponseItemsStep | app/utils/dialogflowParser.ts:179-214 | one more message adds exactly its items when it passes the filter and nothing otherwise |
| DialogflowParser.PromptItemsAppend | app/utils/dialogflowParser.ts:191-214 | the items of kept messages follow one another in order |
| DialogflowParser.FindTextPrompt | app/utils/dialogflowParser.ts:233-236 | the first message that is a `HANDLER_PROMPT` with a non-empty `text.text` array, or none |
| DialogflowParser.ExtractTextFromDialogflowResponse | app/utils/dialogflowParser.ts:228-244 | never empty; the fallback for a non-array; any other answer is the first line of the first text prompt |
| DialogflowParser.FirstTextPromptWins | app/utils/dialogflowParser.ts:233-241 | the first text prompt's non-empty first line is the answer, whatever follows |
| DialogflowParser.EmptyFirstLineStopsSearch | app/utils/dialogflowParser.ts:238-243 | an empty first line of the first text prompt gives the fallback; later prompts are not searched |
| DialogflowWire.AccessorRoundTrips | app/utils/dialogflowParser.ts:44-90 | each accessor reads back its wrapper's content; `false` and lists survive, `""` reads as absent |
| DialogflowWire.CategoryRoundTrip | app/utils/dialogflowParser.ts:100-106 | a category with non-empty name and id reads back unchanged |
| DialogflowWire.CategoryGroupRoundTrip | app/utils/dialogflowParser.ts:98-107 | a category group reads back entry by entry, unchanged |
| DialogflowWire.CategoriesRoundTrip | app/utils/dialogflowParser.ts:95-108 | categories with non-empty names and ids read back unchanged |
| DialogflowWire.KeywordsRoundTrip | app/utils/dialogflowParser.ts:113-116 | non-empty keywords read back unchanged and in order |
| DialogflowWire.ProductRoundTrip | app/utils/dialogflowParser.ts:121-164 | a well-formed product, encoded as an `info` item, is rebuilt exactly |
| DialogflowWire.ReplyItems | app/utils/dialogflowParser.ts:179-200 | a one-prompt, one-group reply walks exactly its items |
| DialogflowWire.SingleItemReply | app/utils/dialogflowParser.ts:169-223 | a reply carrying one item that passes the gates yields exactly its product, with the first id |
| DialogflowWire.ReplyRoundTrip | app/utils/dialogflowParser.ts:169-223 | well-formed products sent in one reply come back unchanged and in order |
| DialogflowExamples.HammerProduct | app/utils/dialogflowParser.ts:136-157 | an item with only a title and `availability: false` gets every default and keeps `false` |
| DialogflowExamples.HammerReply | app/utils/dialogflowParser.ts:169-223 | the reply carrying that item yields exactly that one product |
| DialogflowExamples.EmptyReply | app/utils/dialogflowParser.ts:169-244 | an empty reply gives no products and the fallback text |
| DialogflowExamples.GreetingText | app/utils/dialogflowParser.ts:228-244 | a prompt whose first line is `Hi there` gives `Hi there` |
| DialogflowExamples.PlainHammerReply | app/utils/dialogflowParser.ts:83-90 | the same item written as a plain object is not a struct, so its reply yields no product |
| DialogflowExamples.ChipReply | app/utils/dialogflowParser.ts:127-129 | a `chip` item is skipped: no products |
| Strings.TrimSpec | src/utils/textFormatter.tsx:11 | `trim` leaves nothing exactly for an all-whitespace line, and otherwise starts and ends on non-whitespace |
| Strings.TrimIdempotent | src/utils/textFormatter.tsx:18-21 | trimming an already trimmed line changes nothing |
| TextFormatter.ContentLines | src/utils/textFormatter.tsx:11 | every kept line has non-blank content |
| TextFormatter.KeepContentOne | src/utils/textFormatter.tsx:11 | one line is kept exactly when it is not all whitespace |
| TextFormatter.KeepContentAppend | src/utils/textFormatter.tsx:11 | the line filter keeps order: each line of a concatenation contributes as it would alone |
| TextFormatter.KeepContentExact | src/utils/textFormatter.tsx:11 | the filter keeps every line exactly when no line is all whitespace |
| TextFormatter.ClassifiedTextNonEmpty | src/utils/textFormatter.tsx:18-24 | a content line never yields an empty item or an empty paragraph (a marker is always followed by content) |
| TextFormatter.FormatLine | src/utils/textFormatter.tsx:17-57 | the callback adds the line to the layout as the reference grouping does; a blank line only flushes the pending list |
| TextFormatter.FormatResponseText | src/utils/textFormatter.tsx:7-74 | `None` exactly for `""`; otherwise the reference grouping of the classified content lines |
| TextFormatter.FormatResponseTextShape | src/utils/textFormatter.tsx:17-71 | the layout is well grouped (no empty list, no two adjacent lists) and flattens back to the classified lines in order |
| TextFormatter.GroupWellGrouped | src/utils/textFormatter.tsx:27-40 | the reference grouping never leaves an empty list or two adjacent lists |
| TextFormatter.AddLineWellGrouped | src/utils/textFormatter.tsx:21-40 | adding one classified line keeps a layout well grouped |
| TextFormatter.FlattenGroup | src/utils/textFormatter.tsx:17-57 | the reference grouping loses, adds and reorders no line |
| TextFormatter.GroupItemRun | src/utils/textFormatter.tsx:21-40 | a run of bullet lines after a paragraph becomes exactly one list |
| TextFormatter.GroupFlatten | src/utils/textFormatter.tsx:17-71 | a well-grouped layout is the grouping of its own lines: the layout is unique |
| TextFormatter.FormatResponseTextBlocks | src/utils/textFormatter.tsx:21-55 | no paragraph or item is empty, and a paragraph is a heading exactly when it ends with `:` |
| TextFormatter.FormatResponseTextCounts | src/utils/textFormatter.tsx:17-57 | one list item per bullet line and one paragraph per other content line |
| TextFormatter.FormatSimpleText | src/utils/textFormatter.tsx:79-88 | `None` exactly for `""`; at least one fragment, no line holds a newline, no break after the last |
| Strings.SplitJoin | src/utils/textFormatter.tsx:82 | splitting newline-free lines joined by newlines gives the lines back: the inverse of JoinSplit |
| Strings.JoinSplit | src/utils/textFormatter.tsx:82 | joining the pieces of a split with the separator gives back the text |
| TextFormatter.SimpleTextRoundTrip | src/utils/textFormatter.tsx:79-88 | the fragments display exactly the text, one fragment per line (newlines + 1) |
| ProductCard.FormatDeliveryOptions | app/components/ProductCard.tsx:23-34 | no options give `""`; a single option gives its label |
| ProductCard.FormatDeliveryOptionsAppend | app/components/ProductCard.tsx:23-34 | labels are joined by `, ` in input order |
| ProductCard.DefaultDeliveryLine | app/components/ProductCard.tsx:23-34 | the two default options read `Courier Delivery, Click & Collect` |
| ProductCard.FirstNamedGroup | app/components/ProductCard.tsx:39 | the first group that is non-empty and not headed by `root`, or none |
| ProductCard.GetCategoryPath | app/components/ProductCard.tsx:36-45 | `General` when no group is usable; otherwise the first usable group's names joined by ` > ` |
| ProductCard.UnnamedGroupsSkipped | app/components/ProductCard.tsx:36-45 | empty and `root`-headed groups in front change nothing |
| ProductCard.NamedGroupFirst | app/components/ProductCard.tsx:39-41 | a usable first group decides the breadcrumb |
| ProductCard.CategoryPathNonEmpty | app/components/ProductCard.tsx:36-45 | a built product's breadcrumb is never empty |
| ProductCard.VisibleKeywords | app/components/ProductCard.tsx:86-97 | no chip block exactly when there are no keywords; otherwise the first min(3, n) keywords in order |
| ProductCard.AvailabilityLabel | app/components/ProductCard.tsx:102-107 | `In Stock` exactly when available, `Out of Stock` exactly when not |
| ProductCard.RenderCard | app/components/ProductCard.tsx:47-131 | an image exactly when `image_url` is non-empty, the placeholder hidden exactly then; title, description and link as given |
| ProductCard.ExtractedProductCard | app/components/ProductCard.tsx:47-131 | any built product's card has a breadcrumb, at most three non-empty chips and the fixed delivery line |

## Left out

- Every `console` call, and the `try`/`catch` wrappers. In the code a `catch` is reached when a list slot holds a truthy non-array (see the ExtractListValue line below). In `extractProductFromItem` the `catch` makes the item yield no product. In the walker it ends the walk and returns the products collected so far. The model has no such throw: it reads the slot as `[]`, builds the product where the gates pass and walks on. So on such input the model can return more products than the code.
- Product ids come from `Date.now()` and `Math.random()`. They are a parameter: the k-th product built gets `ids(k)`.
- DialogflowParser.ExtractStringValue: a truthy `stringValue` that is not a string (a number, say) is treated as absent. The code would return it untyped and let later code fail or carry it along.
- DialogflowParser.ExtractBoolValue: a non-boolean, non-null `boolValue` is treated as absent. The code would return it as is.
- DialogflowParser.ExtractListValue: a truthy `listValue.values` that is not an array reads as `[]`. The code would return it, and the caller's `map` or `forEach` would throw into the `catch`.
- DialogflowParser.ExtractTextFromDialogflowResponse: a truthy first text line that is not a string gives the fallback. The code returns it untyped.
- Properties inherited through JavaScript prototypes are not modelled. An array's own `values` method is one example. Only an object's own fields are read.
- `numberValue` is declared in the value type but never read.
- Numbers are integers. No path reads a number.
- The chat route, the Dialogflow client call, credentials and session ids are I/O glue and not part of this model. The same goes for the chat window's state, fetches and timers, the navigation bar and the page.
- The rendered markup is not modelled: class names, React keys, the bullet glyph, icons and the image's `onError` handler. Only the block structure and the strings are modelled.
- The list counter `listIndex` in `formatResponseText` only feeds React keys and is not modelled.
- Strings are sequences of Unicode scalar values. Every character these functions test is in the Basic Multilingual Plane, where a scalar value and a UTF-16 code unit coincide. `trim` removes the ECMAScript whitespace and line-terminator characters.
