/**
 * The vendor's wrapped-value shapes (`google.protobuf.Value` with its `kind`
 * tag, `Struct`, `ListValue`) built from plain data, and the round trips
 * that show the normaliser reads back exactly what a well-formed reply
 * carries.
 */
module DialogflowWire {
  import opened Wrappers
  import opened JsValue
  import opened DialogflowParser

  function StringValue(s: string): JValue {
    JObj(map["kind" := JStr("stringValue"), "stringValue" := JStr(s)])
  }

  function BoolValue(b: bool): JValue {
    JObj(map["kind" := JStr("boolValue"), "boolValue" := JBool(b)])
  }

  function ListValue(values: seq<JValue>): JValue {
    JObj(map["kind" := JStr("listValue"), "listValue" := JObj(map["values" := JArr(values)])])
  }

  function StructValue(fields: map<string, JValue>): JValue {
    JObj(map["kind" := JStr("structValue"), "structValue" := JObj(map["fields" := JObj(fields)])])
  }

  /** Each accessor reads back what its wrapper holds; `false` and lists survive, `""` reads as absent. */
  lemma AccessorRoundTrips(s: string, b: bool, values: seq<JValue>, fields: map<string, JValue>)
    ensures ExtractStringValue(StringValue(s)) == (if s == "" then None else Some(s))
    ensures ExtractBoolValue(BoolValue(b)) == Some(b)
    ensures ExtractListValue(ListValue(values)) == values
    ensures ExtractStructValue(StructValue(fields)) == Some(JObj(fields))
  {
  }

  function EncodeCategory(c: Category): JValue {
    StructValue(map["name" := StringValue(c.name), "id" := StringValue(c.id)])
  }

  function EncodeCategoryGroup(group: seq<Category>): JValue {
    ListValue(seq(|group|, j requires 0 <= j < |group| => EncodeCategory(group[j])))
  }

  function EncodeCategories(categories: seq<seq<Category>>): JValue {
    ListValue(seq(|categories|, i requires 0 <= i < |categories| => EncodeCategoryGroup(categories[i])))
  }

  function EncodeKeywords(keywords: seq<string>): JValue {
    ListValue(seq(|keywords|, k requires 0 <= k < |keywords| => StringValue(keywords[k])))
  }

  /** The `metadata` struct of a product item. */
  function MetadataFields(p: Product): map<string, JValue> {
    map[
      "title" := StringValue(p.title),
      "url" := StringValue(p.productUrl),
      "image_url" := StringValue(p.imageUrl),
      "availability" := BoolValue(p.availability),
      "unit_of_measure" := StringValue(p.unitOfMeasure),
      "keywords" := EncodeKeywords(p.keywords),
      "categories" := EncodeCategories(p.categories)]
  }

  /** The fields of a product item. */
  function ItemFields(p: Product): map<string, JValue> {
    map[
      "type" := StringValue("info"),
      "subtitle" := StringValue(p.description),
      "metadata" := StructValue(MetadataFields(p))]
  }

  /** A rich-content `info` item carrying `p` the way the agent sends products. */
  function EncodeProductItem(p: Product): JValue {
    StructValue(ItemFields(p))
  }

  /** A reply of one handler prompt whose rich content is one group holding `items`. */
  function EncodeReply(items: seq<JValue>): JValue {
    JArr([JObj(map[
      "responseType" := JStr(HandlerPrompt),
      "payload" := JObj(map["fields" := JObj(map["richContent" := ListValue([ListValue(items)])])])])])
  }

  /** A category with a non-empty name and id reads back unchanged. */
  lemma CategoryRoundTrip(c: Category)
    requires c.name != "" && c.id != ""
    ensures CategoryOf(EncodeCategory(c)) == c
  {
    var fields := map["name" := StringValue(c.name), "id" := StringValue(c.id)];
    AccessorRoundTrips(c.name, false, [], fields);
    AccessorRoundTrips(c.id, false, [], fields);
    assert Get(JObj(fields), "name") == StringValue(c.name) && Get(JObj(fields), "id") == StringValue(c.id);
  }

  lemma CategoryGroupRoundTrip(group: seq<Category>)
    requires forall j :: 0 <= j < |group| ==> group[j].name != "" && group[j].id != ""
    ensures ParseCategoryGroup(EncodeCategoryGroup(group)) == group
  {
    var encoded := seq(|group|, j requires 0 <= j < |group| => EncodeCategory(group[j]));
    AccessorRoundTrips("", false, encoded, map[]);
    var r := ParseCategoryGroup(EncodeCategoryGroup(group));
    forall j | 0 <= j < |group| ensures r[j] == group[j] {
      CategoryRoundTrip(group[j]);
    }
  }

  /** Categories with non-empty names and ids read back unchanged. */
  lemma CategoriesRoundTrip(categories: seq<seq<Category>>)
    requires forall i, j :: 0 <= i < |categories| && 0 <= j < |categories[i]| ==>
      categories[i][j].name != "" && categories[i][j].id != ""
    ensures ParseCategories(EncodeCategories(categories)) == categories
  {
    var encoded := seq(|categories|, i requires 0 <= i < |categories| => EncodeCategoryGroup(categories[i]));
    AccessorRoundTrips("", false, encoded, map[]);
    var r := ParseCategories(EncodeCategories(categories));
    forall i | 0 <= i < |categories| ensures r[i] == categories[i] {
      CategoryGroupRoundTrip(categories[i]);
    }
  }

  /** Non-empty keywords read back unchanged, in order. */
  lemma KeywordsRoundTrip(keywords: seq<string>)
    requires forall k :: 0 <= k < |keywords| ==> keywords[k] != ""
    ensures ParseKeywords(EncodeKeywords(keywords)) == keywords
  {
    var entries := ExtractListValue(EncodeKeywords(keywords));
    assert forall k :: 0 <= k < |entries| ==> ExtractStringValue(entries[k]) == Some(keywords[k]);
    KeepStringsExact(entries);
  }

  lemma ItemLookups(p: Product)
    ensures var st := JObj(ItemFields(p));
      && Get(st, "type") == StringValue("info")
      && Get(st, "subtitle") == StringValue(p.description)
      && Get(st, "metadata") == StructValue(MetadataFields(p))
      && Get(st, "title") == JUndef
      && Get(st, "actionLink") == JUndef
  {
  }

  lemma MetadataLookups(p: Product)
    ensures var meta := JObj(MetadataFields(p));
      && Get(meta, "title") == StringValue(p.title)
      && Get(meta, "url") == StringValue(p.productUrl)
      && Get(meta, "image_url") == StringValue(p.imageUrl)
      && Get(meta, "availability") == BoolValue(p.availability)
      && Get(meta, "unit_of_measure") == StringValue(p.unitOfMeasure)
      && Get(meta, "keywords") == EncodeKeywords(p.keywords)
      && Get(meta, "categories") == EncodeCategories(p.categories)
  {
  }

  /** The encoded item passes the three gates, exposing its fields and metadata. */
  lemma EncodedItemGates(p: Product)
    ensures ExtractStructValue(EncodeProductItem(p)) == Some(JObj(ItemFields(p)))
    ensures ExtractStringValue(Get(JObj(ItemFields(p)), "type")) == Some("info")
    ensures ExtractStructValue(Get(JObj(ItemFields(p)), "metadata")) == Some(JObj(MetadataFields(p)))
    ensures IsProductItem(EncodeProductItem(p))
  {
    ItemLookups(p);
    AccessorRoundTrips("info", false, [], ItemFields(p));
    AccessorRoundTrips("info", false, [], MetadataFields(p));
  }

  /** The encoded scalar fields read back as the product's own values. */
  lemma EncodedScalars(p: Product)
    requires WellFormed(p)
    ensures var st, meta := JObj(ItemFields(p)), JObj(MetadataFields(p));
      && ExtractStringValue(Get(meta, "title")) == Some(p.title)
      && ExtractStringValue(Get(st, "subtitle")) == Some(p.description)
      && ExtractStringValue(Get(meta, "url")) == Some(p.productUrl)
      && ExtractStringValue(Get(meta, "image_url")).GetOr("") == p.imageUrl
      && ExtractBoolValue(Get(meta, "availability")) == Some(p.availability)
      && ExtractStringValue(Get(meta, "unit_of_measure")) == Some(p.unitOfMeasure)
  {
    ItemLookups(p);
    MetadataLookups(p);
    AccessorRoundTrips(p.title, p.availability, [], map[]);
    AccessorRoundTrips(p.description, p.availability, [], map[]);
    AccessorRoundTrips(p.productUrl, p.availability, [], map[]);
    AccessorRoundTrips(p.imageUrl, p.availability, [], map[]);
    AccessorRoundTrips(p.unitOfMeasure, p.availability, [], map[]);
  }

  /** A well-formed product survives encoding and extraction, id aside. */
  lemma ProductRoundTrip(p: Product)
    requires WellFormed(p)
    ensures ExtractProductFromItem(EncodeProductItem(p), p.id) == Some(p)
  {
    var item := EncodeProductItem(p);
    EncodedItemGates(p);
    EncodedScalars(p);
    MetadataLookups(p);
    KeywordsRoundTrip(p.keywords);
    CategoriesRoundTrip(p.categories);
    ProductFieldDefaults(item, p.id);
  }

  /** The reply's one handler prompt passes the filter and carries exactly `items`. */
  lemma ReplyItems(items: seq<JValue>)
    ensures ResponseItems(EncodeReply(items).items) == items
  {
    var reply := EncodeReply(items);
    var msg := reply.items[0];
    ReplyLookups(items);
    assert IsRichPrompt(msg);
    assert [msg][..0] == [];
    assert RichPrompts(reply.items) == [msg];
    assert [ListValue(items)][..0] == [];
    assert GroupItems([ListValue(items)]) == GroupItems([]) + ExtractListValue(ListValue(items));
    assert MessageItems(msg) == items;
    assert PromptItems([msg]) == items;
  }

  lemma ReplyLookups(items: seq<JValue>)
    ensures var msg := EncodeReply(items).items[0];
      && Get(msg, "responseType") == JStr(HandlerPrompt)
      && RichContentOf(msg) == ListValue([ListValue(items)])
      && ExtractListValue(RichContentOf(msg)) == [ListValue(items)]
      && ExtractListValue(ListValue(items)) == items
  {
  }

  /** A list of product items passes the gates whole. */
  lemma {:induction false} AllProductItems(items: seq<JValue>)
    requires forall k :: 0 <= k < |items| ==> IsProductItem(items[k])
    ensures ProductItems(items) == items
    decreases |items|
  {
    if items != [] {
      AllProductItems(items[..|items| - 1]);
    }
  }

  /** A reply carrying one item that passes the gates yields exactly that item's product, with the first id. */
  lemma SingleItemReply(item: JValue, ids: IdSource)
    requires IsProductItem(item)
    ensures ExtractProducts(EncodeReply([item]), ids) == [ExtractProductFromItem(item, ids(0)).value]
  {
    var items := [item];
    ReplyItems(items);
    AllProductItems(items);
    var products := ProductsFromItems(items, ids);
    assert products == [products[0]];
  }

  /**
   * Well-formed products sent in one handler prompt come back from the
   * walker unchanged and in order, given the ids they were sent with.
   */
  lemma ReplyRoundTrip(products: seq<Product>, ids: IdSource)
    requires forall k :: 0 <= k < |products| ==> WellFormed(products[k]) && ids(k) == products[k].id
    ensures ExtractProducts(EncodeReply(seq(|products|, k requires 0 <= k < |products| => EncodeProductItem(products[k]))), ids)
      == products
  {
    var items := seq(|products|, k requires 0 <= k < |products| => EncodeProductItem(products[k]));
    ReplyItems(items);
    forall k | 0 <= k < |items|
      ensures IsProductItem(items[k]) && ExtractProductFromItem(items[k], ids(k)) == Some(products[k])
    {
      ProductRoundTrip(products[k]);
    }
    AllProductItems(items);
  }
}
