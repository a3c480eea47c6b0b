/**
 * The Dialogflow CX response normaliser: it turns the vendor's
 * self-describing value tree (the shape of `google.protobuf.Value`, `Struct`
 * and `ListValue`, probed field by field with JavaScript truthiness) into
 * the chat's text line and its ordered list of products.
 */
module DialogflowParser {
  import opened Wrappers
  import opened JsValue
  import opened Sequences

  /** The text shown when no usable text line is found. */
  const Fallback: string := "I apologize, but I couldn't process your request right now."

  /** The `responseType` of the messages that carry text and rich content. */
  const HandlerPrompt: string := "HANDLER_PROMPT"

  /** Every product is offered these, whatever the reply says. */
  const DefaultDeliveryOptions: seq<string> := ["courier", "clickAndCollect"]

  datatype Category = Category(name: string, id: string)

  datatype Product = Product(
    id: string,
    title: string,
    description: string,
    productUrl: string,
    imageUrl: string,
    availability: bool,
    unitOfMeasure: string,
    keywords: seq<string>,
    deliveryOptions: seq<string>,
    categories: seq<seq<Category>>)

  /** Where the product ids come from: the k-th product built gets `ids(k)`. */
  type IdSource = nat -> string

  // ---------------------------------------------------------------------
  // Typed-value accessors

  /** The schema's string slot: a non-empty string; anything else is absent. */
  function AsString(v: JValue): Option<string> {
    if v.JStr? && v.s != "" then Some(v.s) else None
  }

  /** The schema's boolean slot. */
  function AsBool(v: JValue): Option<bool> {
    if v.JBool? then Some(v.b) else None
  }

  /** The schema's list slot. */
  function AsList(v: JValue): seq<JValue> {
    if v.JArr? then v.items else []
  }

  /**
   * `extractStringValue`: a plain string as it is, the `stringValue` of a
   * wrapped value whatever its `kind` says, and nothing else; never `""`.
   */
  function ExtractStringValue(field: JValue): (r: Option<string>)
    ensures r.Some? ==> r.value != ""
    ensures field.JStr? ==> r == (if field.s == "" then None else Some(field.s))
    ensures field.JObj? ==> r == AsString(Get(field, "stringValue"))
    ensures !field.JStr? && !field.JObj? ==> r == None
  {
    if !Truthy(field) then None
    else if field.JStr? then Some(field.s)
    else if Truthy(Get(field, "stringValue")) then AsString(Get(field, "stringValue"))
    else if Get(field, "kind") == JStr("stringValue") && Truthy(Get(field, "stringValue")) then
      AsString(Get(field, "stringValue"))
    else None
  }

  /**
   * `extractBoolValue`: a bare `true`, or the `boolValue` of a wrapped value
   * (`false` included) whatever its `kind` says. A bare `false` is falsy and
   * so reads as absent.
   */
  function ExtractBoolValue(field: JValue): (r: Option<bool>)
    ensures field.JBool? ==> r == (if field.b then Some(true) else None)
    ensures field.JObj? ==> r == AsBool(Get(field, "boolValue"))
    ensures !field.JBool? && !field.JObj? ==> r == None
  {
    if !Truthy(field) then None
    else if field.JBool? then Some(field.b)
    else if Get(field, "boolValue") != JUndef then AsBool(Get(field, "boolValue"))
    else if Get(field, "kind") == JStr("boolValue") && Get(field, "boolValue") != JUndef then
      AsBool(Get(field, "boolValue"))
    else None
  }

  /**
   * `extractListValue`, which is total: a plain array unchanged, the
   * `listValue.values` of a wrapped value whatever its `kind` says, and `[]`
   * for everything else.
   */
  function ExtractListValue(field: JValue): (r: seq<JValue>)
    ensures field.JArr? ==> r == field.items
    ensures field.JObj? ==> r == AsList(Get(Get(field, "listValue"), "values"))
    ensures !field.JArr? && !field.JObj? ==> r == []
  {
    if !Truthy(field) then []
    else if field.JArr? then field.items
    else if Truthy(Get(field, "listValue")) && Truthy(Get(Get(field, "listValue"), "values")) then
      AsList(Get(Get(field, "listValue"), "values"))
    else if Get(field, "kind") == JStr("listValue") && Truthy(Get(field, "listValue"))
      && Truthy(Get(Get(field, "listValue"), "values")) then
      AsList(Get(Get(field, "listValue"), "values"))
    else []
  }

  /**
   * `extractStructValue`: the truthy `structValue.fields` of a wrapped value
   * whatever its `kind` says; a plain object is not a struct.
   */
  function ExtractStructValue(field: JValue): (r: Option<JValue>)
    ensures r.Some? <==> field.JObj? && Truthy(Get(Get(field, "structValue"), "fields"))
    ensures r.Some? ==> r.value == Get(Get(field, "structValue"), "fields")
  {
    if !Truthy(field) then None
    else if Truthy(Get(field, "structValue")) && Truthy(Get(Get(field, "structValue"), "fields")) then
      Some(Get(Get(field, "structValue"), "fields"))
    else if Get(field, "kind") == JStr("structValue") && Truthy(Get(field, "structValue"))
      && Truthy(Get(Get(field, "structValue"), "fields")) then
      Some(Get(Get(field, "structValue"), "fields"))
    else None
  }

  /** The `kind` tag is advisory: retagging a value never changes what it reads as. */
  lemma KindIsAdvisory(fields: map<string, JValue>, kind: JValue)
    ensures var retagged := JObj(fields["kind" := kind]);
      && ExtractStringValue(retagged) == ExtractStringValue(JObj(fields))
      && ExtractBoolValue(retagged) == ExtractBoolValue(JObj(fields))
      && ExtractListValue(retagged) == ExtractListValue(JObj(fields))
      && ExtractStructValue(retagged) == ExtractStructValue(JObj(fields))
  {
    var retagged := JObj(fields["kind" := kind]);
    assert forall k :: k != "kind" ==> Get(retagged, k) == Get(JObj(fields), k);
  }

  /** JavaScript's `a || d` on a `string | undefined`. */
  function OrElse(a: Option<string>, d: string): string {
    if a.Some? && a.value != "" then a.value else d
  }

  /** On a slot that never reads as `""`, `||` is `??`. */
  lemma OrElseGetOr(a: Option<string>, d: string)
    requires a.Some? ==> a.value != ""
    ensures OrElse(a, d) == a.GetOr(d)
  {
  }

  // ---------------------------------------------------------------------
  // Categories and keywords

  /** One `{name, id}` entry, with `'Unknown'` and `'unknown'` as defaults. */
  function CategoryOf(entry: JValue): (c: Category)
    ensures c.name != "" && c.id != ""
    ensures ExtractStructValue(entry).None? ==> c == Category("Unknown", "unknown")
    ensures ExtractStructValue(entry).Some? ==>
      var fields := ExtractStructValue(entry).value;
      && c.name == ExtractStringValue(Get(fields, "name")).GetOr("Unknown")
      && c.id == ExtractStringValue(Get(fields, "id")).GetOr("unknown")
  {
    var st := ExtractStructValue(entry);
    var fields := if st.Some? then st.value else JUndef;
    Category(OrElse(ExtractStringValue(Get(fields, "name")), "Unknown"),
             OrElse(ExtractStringValue(Get(fields, "id")), "unknown"))
  }

  /** One category group: its inner list, entry by entry. */
  function ParseCategoryGroup(group: JValue): seq<Category> {
    var entries := ExtractListValue(group);
    seq(|entries|, j requires 0 <= j < |entries| => CategoryOf(entries[j]))
  }

  /**
   * `parseCategories`: one path per category group and one `{name, id}` per
   * inner entry, nesting kept, nothing flattened or dropped.
   */
  function ParseCategories(field: JValue): (r: seq<seq<Category>>)
    ensures |r| == |ExtractListValue(field)|
    ensures forall i :: 0 <= i < |r| ==>
      |r[i]| == |ExtractListValue(ExtractListValue(field)[i])|
    ensures forall i, j :: 0 <= i < |r| && 0 <= j < |r[i]| ==>
      r[i][j] == CategoryOf(ExtractListValue(ExtractListValue(field)[i])[j])
    ensures forall i, j :: 0 <= i < |r| && 0 <= j < |r[i]| ==>
      r[i][j].name != "" && r[i][j].id != ""
  {
    var groups := ExtractListValue(field);
    seq(|groups|, i requires 0 <= i < |groups| => ParseCategoryGroup(groups[i]))
  }

  /** The entries that read as strings, in order; the rest are dropped. */
  function KeepStrings(entries: seq<JValue>): (r: seq<string>)
    ensures |r| <= |entries|
    ensures forall k :: 0 <= k < |r| ==> r[k] != ""
    decreases |entries|
  {
    if entries == [] then []
    else
      match ExtractStringValue(entries[0])
      case Some(s) => [s] + KeepStrings(entries[1..])
      case None => KeepStrings(entries[1..])
  }

  /** `parseKeywords`. */
  function ParseKeywords(field: JValue): (r: seq<string>)
    ensures |r| <= |ExtractListValue(field)|
    ensures forall k :: 0 <= k < |r| ==> r[k] != ""
  {
    KeepStrings(ExtractListValue(field))
  }

  /** Keyword parsing keeps order: the keywords of a concatenation are the concatenation of the keywords. */
  lemma {:induction false} KeepStringsAppend(a: seq<JValue>, b: seq<JValue>)
    ensures KeepStrings(a + b) == KeepStrings(a) + KeepStrings(b)
    decreases |a|
  {
    if a != [] {
      assert (a + b)[0] == a[0] && (a + b)[1..] == a[1..] + b;
      KeepStringsAppend(a[1..], b);
    } else {
      assert a + b == b;
    }
  }

  /** Keyword parsing drops exactly the entries that read as absent. */
  lemma {:induction false} KeepStringsExact(entries: seq<JValue>)
    ensures (forall k :: 0 <= k < |entries| ==> ExtractStringValue(entries[k]).Some?) ==>
      KeepStrings(entries) == seq(|entries|, k requires 0 <= k < |entries| => ExtractStringValue(entries[k]).value)
    ensures (forall k :: 0 <= k < |entries| ==> ExtractStringValue(entries[k]).None?) ==>
      KeepStrings(entries) == []
    decreases |entries|
  {
    if entries != [] {
      KeepStringsExact(entries[1..]);
      assert forall k :: 1 <= k < |entries| ==> entries[1..][k - 1] == entries[k];
    }
  }

  // ---------------------------------------------------------------------
  // One rich-content item

  /** The three gates of `extractProductFromItem`. */
  predicate IsProductItem(item: JValue) {
    var st := ExtractStructValue(item);
    && st.Some?
    && ExtractStringValue(Get(st.value, "type")) == Some("info")
    && ExtractStructValue(Get(st.value, "metadata")).Some?
  }

  /** What every product the parser builds looks like. */
  predicate WellFormed(p: Product) {
    && p.title != "" && p.description != "" && p.productUrl != "" && p.unitOfMeasure != ""
    && (forall k :: 0 <= k < |p.keywords| ==> p.keywords[k] != "")
    && (forall i, j :: 0 <= i < |p.categories| && 0 <= j < |p.categories[i]| ==>
          p.categories[i][j].name != "" && p.categories[i][j].id != "")
    && p.deliveryOptions == DefaultDeliveryOptions
  }

  /**
   * `extractProductFromItem`, with the generated id passed in: a product
   * exactly when the item is a struct whose `type` reads `'info'` and whose
   * `metadata` is a struct, each field defaulted as documented.
   */
  function ExtractProductFromItem(item: JValue, id: string): (r: Option<Product>)
    ensures r.Some? <==> IsProductItem(item)
    ensures r.Some? ==> r.value.id == id && WellFormed(r.value)
  {
    var itemStruct := ExtractStructValue(item);
    if itemStruct.None? then None
    else
      var st := itemStruct.value;
      if ExtractStringValue(Get(st, "type")) != Some("info") then None
      else
        var metadataStruct := ExtractStructValue(Get(st, "metadata"));
        if metadataStruct.None? then None
        else
          var meta := metadataStruct.value;
          Some(Product(
            id := id,
            title := OrElse(ExtractStringValue(Get(meta, "title")),
                            OrElse(ExtractStringValue(Get(st, "title")), "Product")),
            description := OrElse(ExtractStringValue(Get(st, "subtitle")), "No description available"),
            productUrl := OrElse(ExtractStringValue(Get(meta, "url")),
                                 OrElse(ExtractStringValue(Get(st, "actionLink")), "#")),
            imageUrl := OrElse(ExtractStringValue(Get(meta, "image_url")), ""),
            availability := ExtractBoolValue(Get(meta, "availability")).GetOr(true),
            unitOfMeasure := OrElse(ExtractStringValue(Get(meta, "unit_of_measure")), "each"),
            keywords := ParseKeywords(Get(meta, "keywords")),
            deliveryOptions := DefaultDeliveryOptions,
            categories := ParseCategories(Get(meta, "categories"))))
  }

  /**
   * The fields of a built product: `title` from the metadata, else the
   * item, else `'Product'`; `description` from the item's `subtitle` only;
   * `product_url` from the metadata's `url`, else the item's `actionLink`,
   * else `'#'`; the rest from the metadata with their defaults.
   */
  lemma ProductFieldDefaults(item: JValue, id: string)
    requires IsProductItem(item)
    ensures
      var p := ExtractProductFromItem(item, id).value;
      var st := ExtractStructValue(item).value;
      var meta := ExtractStructValue(Get(st, "metadata")).value;
      && p.title == ExtractStringValue(Get(meta, "title")).GetOr(ExtractStringValue(Get(st, "title")).GetOr("Product"))
      && p.description == ExtractStringValue(Get(st, "subtitle")).GetOr("No description available")
      && p.productUrl == ExtractStringValue(Get(meta, "url")).GetOr(ExtractStringValue(Get(st, "actionLink")).GetOr("#"))
      && p.imageUrl == ExtractStringValue(Get(meta, "image_url")).GetOr("")
      && p.availability == ExtractBoolValue(Get(meta, "availability")).GetOr(true)
      && p.unitOfMeasure == ExtractStringValue(Get(meta, "unit_of_measure")).GetOr("each")
      && p.keywords == ParseKeywords(Get(meta, "keywords"))
      && p.categories == ParseCategories(Get(meta, "categories"))
      && p.deliveryOptions == DefaultDeliveryOptions
  {
    var st := ExtractStructValue(item).value;
    var meta := ExtractStructValue(Get(st, "metadata")).value;
    OrElseGetOr(ExtractStringValue(Get(st, "title")), "Product");
    OrElseGetOr(ExtractStringValue(Get(meta, "title")), ExtractStringValue(Get(st, "title")).GetOr("Product"));
    OrElseGetOr(ExtractStringValue(Get(st, "subtitle")), "No description available");
    OrElseGetOr(ExtractStringValue(Get(st, "actionLink")), "#");
    OrElseGetOr(ExtractStringValue(Get(meta, "url")), ExtractStringValue(Get(st, "actionLink")).GetOr("#"));
    OrElseGetOr(ExtractStringValue(Get(meta, "image_url")), "");
    OrElseGetOr(ExtractStringValue(Get(meta, "unit_of_measure")), "each");
  }

  // ---------------------------------------------------------------------
  // The response walker

  /** The `richContent` field of a message's payload. */
  function RichContentOf(msg: JValue): JValue {
    Get(Get(Get(msg, "payload"), "fields"), "richContent")
  }

  /** The filter of `extractProductsFromDialogflowResponse`. */
  predicate IsRichPrompt(msg: JValue) {
    Truthy(msg) && Get(msg, "responseType") == JStr(HandlerPrompt) && Truthy(RichContentOf(msg))
  }

  /** The messages that pass the filter, in order. */
  function RichPrompts(messages: seq<JValue>): (r: seq<JValue>)
    ensures |r| <= |messages|
    ensures forall k :: 0 <= k < |r| ==> IsRichPrompt(r[k])
    decreases |messages|
  {
    if messages == [] then []
    else
      var prefix := RichPrompts(messages[..|messages| - 1]);
      if IsRichPrompt(messages[|messages| - 1]) then prefix + [messages[|messages| - 1]] else prefix
  }

  /** The items of a list of content groups, group by group. */
  function GroupItems(groups: seq<JValue>): seq<JValue>
    decreases |groups|
  {
    if groups == [] then []
    else GroupItems(groups[..|groups| - 1]) + ExtractListValue(groups[|groups| - 1])
  }

  /** The items of the rich content of one message. */
  function MessageItems(msg: JValue): seq<JValue> {
    GroupItems(ExtractListValue(RichContentOf(msg)))
  }

  /** The items of a list of messages, message by message. */
  function PromptItems(prompts: seq<JValue>): seq<JValue>
    decreases |prompts|
  {
    if prompts == [] then []
    else PromptItems(prompts[..|prompts| - 1]) + MessageItems(prompts[|prompts| - 1])
  }

  /** Every rich-content item of a reply, in message, group, item order. */
  function ResponseItems(messages: seq<JValue>): seq<JValue> {
    PromptItems(RichPrompts(messages))
  }

  /** The items that pass the three gates, in order. */
  function ProductItems(items: seq<JValue>): (r: seq<JValue>)
    ensures |r| <= |items|
    ensures forall k :: 0 <= k < |r| ==> IsProductItem(r[k])
    decreases |items|
  {
    if items == [] then []
    else
      var prefix := ProductItems(items[..|items| - 1]);
      if IsProductItem(items[|items| - 1]) then prefix + [items[|items| - 1]] else prefix
  }

  /** The builder's result on each item that passes the gates, the k-th with the k-th id. */
  function ProductsFromItems(items: seq<JValue>, ids: IdSource): (r: seq<Product>)
    ensures |r| <= |items|
  {
    var gated := ProductItems(items);
    seq(|gated|, k requires 0 <= k < |gated| => ExtractProductFromItem(gated[k], ids(k)).value)
  }

  /** What `extractProductsFromDialogflowResponse` returns. */
  function ExtractProducts(responseMessages: JValue, ids: IdSource): seq<Product> {
    if responseMessages.JArr? then ProductsFromItems(ResponseItems(responseMessages.items), ids)
    else []
  }

  /**
   * `extractProductsFromDialogflowResponse`: the filter, then a loop over the
   * kept messages; the nested `forEach` callbacks are the two methods below,
   * each pushing onto the same `products`.
   */
  method ExtractProductsFromDialogflowResponse(responseMessages: JValue, ids: IdSource)
    returns (products: seq<Product>)
    ensures products == ExtractProducts(responseMessages, ids)
  {
    products := [];
    if !responseMessages.JArr? {
      return;
    }
    var payloadResponses := RichPrompts(responseMessages.items);
    if |payloadResponses| == 0 {
      return;
    }
    var i := 0;
    while i < |payloadResponses|
      invariant 0 <= i <= |payloadResponses|
      invariant products == ProductsFromItems(PromptItems(payloadResponses[..i]), ids)
    {
      PromptItemsStep(payloadResponses, i);
      products := CollectFromMessage(payloadResponses[i], ids, products, PromptItems(payloadResponses[..i]));
      i := i + 1;
    }
    assert payloadResponses[..i] == payloadResponses;
  }

  /**
   * The callback for one kept message: every content group of its rich
   * content, in order. `seen` is the items already walked, whose products
   * `products0` holds.
   */
  method CollectFromMessage(payloadResponse: JValue, ids: IdSource, products0: seq<Product>, ghost seen: seq<JValue>)
    returns (products: seq<Product>)
    requires products0 == ProductsFromItems(seen, ids)
    ensures products == ProductsFromItems(seen + MessageItems(payloadResponse), ids)
  {
    var richContentValues := ExtractListValue(RichContentOf(payloadResponse));
    products := products0;
    var j := 0;
    assert seen + [] == seen;
    while j < |richContentValues|
      invariant 0 <= j <= |richContentValues|
      invariant products == ProductsFromItems(seen + GroupItems(richContentValues[..j]), ids)
    {
      GroupItemsStep(richContentValues, j);
      ConcatAssoc(seen, GroupItems(richContentValues[..j]), ExtractListValue(richContentValues[j]));
      products := CollectFromGroup(richContentValues[j], ids, products, seen + GroupItems(richContentValues[..j]));
      j := j + 1;
    }
    assert richContentValues[..j] == richContentValues;
  }

  /** The callback for one content group: every item of it, in order. */
  method CollectFromGroup(contentGroup: JValue, ids: IdSource, products0: seq<Product>, ghost seen: seq<JValue>)
    returns (products: seq<Product>)
    requires products0 == ProductsFromItems(seen, ids)
    ensures products == ProductsFromItems(seen + ExtractListValue(contentGroup), ids)
  {
    var contentGroupValues := ExtractListValue(contentGroup);
    products := products0;
    var k := 0;
    ghost var walked := seen;
    assert seen + [] == seen;
    while k < |contentGroupValues|
      invariant 0 <= k <= |contentGroupValues|
      invariant walked == seen + contentGroupValues[..k]
      invariant products == ProductsFromItems(walked, ids)
    {
      TakeStep(contentGroupValues, k);
      ConcatAssoc(seen, contentGroupValues[..k], [contentGroupValues[k]]);
      products := CollectFromItem(contentGroupValues[k], ids, products, walked);
      walked := walked + [contentGroupValues[k]];
      k := k + 1;
    }
    assert contentGroupValues[..k] == contentGroupValues;
  }

  /** The callback for one item: build it and push the product when there is one. */
  method CollectFromItem(item: JValue, ids: IdSource, products0: seq<Product>, ghost seen: seq<JValue>)
    returns (products: seq<Product>)
    requires products0 == ProductsFromItems(seen, ids)
    ensures products == ProductsFromItems(seen + [item], ids)
  {
    products := products0;
    ProductsStep(seen, item, ids);
    var product := ExtractProductFromItem(item, ids(|products|));
    if product.Some? {
      products := products + [product.value];
    }
  }

  /** Running the builder on one more item. */
  lemma ProductsStep(items: seq<JValue>, item: JValue, ids: IdSource)
    ensures var prefix, p := ProductsFromItems(items, ids), ExtractProductFromItem(item, ids(|ProductsFromItems(items, ids)|));
      ProductsFromItems(items + [item], ids) == if p.Some? then prefix + [p.value] else prefix
  {
    var all := items + [item];
    TakeConcat(items, [item]);
    var g, g' := ProductItems(items), ProductItems(all);
    var prefix, products := ProductsFromItems(items, ids), ProductsFromItems(all, ids);
    assert |prefix| == |g|;
    if IsProductItem(item) {
      assert g' == g + [item];
      forall k | 0 <= k < |g| ensures products[k] == prefix[k] {
        assert g'[k] == g[k];
      }
      assert products == prefix + [products[|g|]];
    } else {
      assert g' == g;
    }
  }

  lemma GroupItemsStep(groups: seq<JValue>, j: nat)
    requires j < |groups|
    ensures GroupItems(groups[..j + 1]) == GroupItems(groups[..j]) + ExtractListValue(groups[j])
  {
    TakeStep(groups, j);
  }

  lemma PromptItemsStep(prompts: seq<JValue>, i: nat)
    requires i < |prompts|
    ensures PromptItems(prompts[..i + 1]) == PromptItems(prompts[..i]) + MessageItems(prompts[i])
  {
    TakeStep(prompts, i);
  }

  /** A reply that is not an array yields no products. */
  lemma NonArrayYieldsNoProducts(responseMessages: JValue, ids: IdSource)
    requires !responseMessages.JArr?
    ensures ExtractProducts(responseMessages, ids) == []
  {
  }

  /**
   * Every product comes from an item of the walk that passed the gates,
   * carries its position's id, and has the shape every built product has.
   */
  lemma {:induction false} ProductsComeFromItems(items: seq<JValue>, ids: IdSource)
    ensures forall k :: 0 <= k < |ProductsFromItems(items, ids)| ==>
      && ProductItems(items)[k] in items
      && ProductsFromItems(items, ids)[k].id == ids(k)
      && WellFormed(ProductsFromItems(items, ids)[k])
    decreases |items|
  {
    if items != [] {
      var prefix := items[..|items| - 1];
      ProductsComeFromItems(prefix, ids);
      assert forall x :: x in prefix ==> x in items;
    }
  }

  /** The gate filter keeps order across concatenation. */
  lemma {:induction false} ProductItemsAppend(a: seq<JValue>, b: seq<JValue>)
    ensures ProductItems(a + b) == ProductItems(a) + ProductItems(b)
    decreases |b|
  {
    if b == [] {
      assert a + b == a;
    } else {
      var b' := b[..|b| - 1];
      DropLastConcat(a, b);
      ProductItemsAppend(a, b');
      ConcatAssoc(ProductItems(a), ProductItems(b'), [b[|b| - 1]]);
    }
  }

  /** A message that fails the filter contributes no items. */
  lemma FilteredMessageContributesNothing(msg: JValue)
    requires !IsRichPrompt(msg)
    ensures ResponseItems([msg]) == []
  {
    assert [msg][..0] == [];
  }

  /** The items of consecutive message lists follow one another: message order is kept. */
  lemma ResponseItemsAppend(a: seq<JValue>, b: seq<JValue>)
    ensures ResponseItems(a + b) == ResponseItems(a) + ResponseItems(b)
  {
    RichPromptsAppend(a, b);
    PromptItemsAppend(RichPrompts(a), RichPrompts(b));
  }

  lemma {:induction false} RichPromptsAppend(a: seq<JValue>, b: seq<JValue>)
    ensures RichPrompts(a + b) == RichPrompts(a) + RichPrompts(b)
    decreases |b|
  {
    if b == [] {
      assert a + b == a;
    } else {
      var b' := b[..|b| - 1];
      DropLastConcat(a, b);
      RichPromptsAppend(a, b');
      ConcatAssoc(RichPrompts(a), RichPrompts(b'), [b[|b| - 1]]);
    }
  }

  /** The filter on one message: kept exactly when it passes. */
  lemma RichPromptsOne(msg: JValue)
    ensures RichPrompts([msg]) == if IsRichPrompt(msg) then [msg] else []
  {
    assert [msg][..0] == [];
  }

  /** With the filter on one message and its order across concatenation, a kept message adds exactly its items. */
  lemma ResponseItemsStep(messages: seq<JValue>, msg: JValue)
    ensures ResponseItems(messages + [msg]) == ResponseItems(messages) + (if IsRichPrompt(msg) then MessageItems(msg) else [])
  {
    RichPromptsAppend(messages, [msg]);
    RichPromptsOne(msg);
    PromptItemsAppend(RichPrompts(messages), RichPrompts([msg]));
    assert [msg][..0] == [];
    assert RichPrompts(messages) + [] == RichPrompts(messages);
  }

  lemma {:induction false} PromptItemsAppend(a: seq<JValue>, b: seq<JValue>)
    ensures PromptItems(a + b) == PromptItems(a) + PromptItems(b)
    decreases |b|
  {
    if b == [] {
      assert a + b == a;
    } else {
      var b' := b[..|b| - 1];
      DropLastConcat(a, b);
      PromptItemsAppend(a, b');
      ConcatAssoc(PromptItems(a), PromptItems(b'), MessageItems(b[|b| - 1]));
    }
  }

  // ---------------------------------------------------------------------
  // The text extractor

  /** The `text.text` field of a message. */
  function TextLinesOf(msg: JValue): JValue {
    Get(Get(msg, "text"), "text")
  }

  /** The predicate of the `find` in `extractTextFromDialogflowResponse`. */
  predicate IsTextPrompt(msg: JValue) {
    && Truthy(msg)
    && Get(msg, "responseType") == JStr(HandlerPrompt)
    && Truthy(Get(msg, "text"))
    && TextLinesOf(msg).JArr?
    && |TextLinesOf(msg).items| > 0
  }

  /** `Array.prototype.find` with that predicate, as an index. */
  function FindTextPrompt(messages: seq<JValue>): (r: Option<nat>)
    ensures r.Some? ==>
      && r.value < |messages| && IsTextPrompt(messages[r.value])
      && forall j :: 0 <= j < r.value ==> !IsTextPrompt(messages[j])
    ensures r.None? ==> forall j :: 0 <= j < |messages| ==> !IsTextPrompt(messages[j])
    decreases |messages|
  {
    if messages == [] then None
    else if IsTextPrompt(messages[0]) then Some(0)
    else
      match FindTextPrompt(messages[1..])
      case Some(j) => Some(j + 1)
      case None => None
  }

  /**
   * `extractTextFromDialogflowResponse`: the first line of the first
   * text prompt, or the fallback; never empty.
   */
  function ExtractTextFromDialogflowResponse(responseMessages: JValue): (r: string)
    ensures r != ""
    ensures !responseMessages.JArr? ==> r == Fallback
    ensures r != Fallback ==>
      && responseMessages.JArr?
      && var found := FindTextPrompt(responseMessages.items);
         found.Some? && TextLinesOf(responseMessages.items[found.value]).items[0] == JStr(r)
  {
    if !responseMessages.JArr? then Fallback
    else
      match FindTextPrompt(responseMessages.items)
      case None => Fallback
      case Some(i) =>
        match AsString(TextLinesOf(responseMessages.items[i]).items[0])
        case Some(line) => line
        case None => Fallback
  }

  /** The first text prompt decides: its non-empty first line is the answer. */
  lemma FirstTextPromptWins(messages: seq<JValue>, i: nat, line: string)
    requires i < |messages| && IsTextPrompt(messages[i])
    requires forall j :: 0 <= j < i ==> !IsTextPrompt(messages[j])
    requires TextLinesOf(messages[i]).items[0] == JStr(line) && line != ""
    ensures ExtractTextFromDialogflowResponse(JArr(messages)) == line
  {
    var found := FindTextPrompt(messages);
    assert found == Some(i);
  }

  /** An empty first line gives the fallback; later messages are not searched. */
  lemma EmptyFirstLineStopsSearch(messages: seq<JValue>, i: nat)
    requires i < |messages| && IsTextPrompt(messages[i])
    requires forall j :: 0 <= j < i ==> !IsTextPrompt(messages[j])
    requires !Truthy(TextLinesOf(messages[i]).items[0])
    ensures ExtractTextFromDialogflowResponse(JArr(messages)) == Fallback
  {
    var found := FindTextPrompt(messages);
    assert found == Some(i);
  }
}
