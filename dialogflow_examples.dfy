/**
 * Worked replies: a one-product reply with most metadata missing, an empty
 * reply, a text reply and a reply whose only item is a chip.
 */
module DialogflowExamples {
  import opened Wrappers
  import opened JsValue
  import opened DialogflowParser
  import opened DialogflowWire

  /** The metadata of the hammer: only a title and `availability: false`. */
  function HammerMetadata(): map<string, JValue> {
    map["title" := StringValue("Hammer"), "availability" := BoolValue(false)]
  }

  function HammerFields(): map<string, JValue> {
    map["type" := StringValue("info"), "metadata" := StructValue(HammerMetadata())]
  }

  /** An `info` item with no subtitle, no link and sparse metadata. */
  function HammerItem(): JValue {
    StructValue(HammerFields())
  }

  lemma HammerFieldLookups()
    ensures var st := JObj(HammerFields());
      && Get(st, "type") == StringValue("info")
      && Get(st, "subtitle") == JUndef && Get(st, "actionLink") == JUndef && Get(st, "title") == JUndef
      && Get(st, "metadata") == StructValue(HammerMetadata())
  {
  }

  lemma HammerMetadataLookups()
    ensures var meta := JObj(HammerMetadata());
      && Get(meta, "title") == StringValue("Hammer")
      && Get(meta, "availability") == BoolValue(false)
      && Get(meta, "url") == JUndef && Get(meta, "image_url") == JUndef
      && Get(meta, "unit_of_measure") == JUndef
      && Get(meta, "keywords") == JUndef && Get(meta, "categories") == JUndef
  {
  }

  /** Missing fields take their defaults; `availability: false` survives. */
  lemma HammerProduct(id: string)
    ensures ExtractProductFromItem(HammerItem(), id)
      == Some(Product(id, "Hammer", "No description available", "#", "", false, "each", [], DefaultDeliveryOptions, []))
  {
    HammerFieldLookups();
    HammerMetadataLookups();
    AccessorRoundTrips("info", false, [], HammerFields());
    AccessorRoundTrips("Hammer", false, [], HammerMetadata());
    assert IsProductItem(HammerItem());
    ProductFieldDefaults(HammerItem(), id);
  }

  /** The whole reply carrying the hammer yields that one product. */
  lemma HammerReply(ids: IdSource)
    ensures ExtractProducts(EncodeReply([HammerItem()]), ids)
      == [Product(ids(0), "Hammer", "No description available", "#", "", false, "each", [], DefaultDeliveryOptions, [])]
  {
    HammerProduct(ids(0));
    SingleItemReply(HammerItem(), ids);
  }

  /** The hammer written with plain objects and a bare `false`, as a reply is often sketched. */
  function PlainHammerItem(): JValue {
    JObj(map["type" := JStr("info"), "metadata" := JObj(map["title" := JStr("Hammer"), "availability" := JBool(false)])])
  }

  function PlainHammerMessage(): JValue {
    JObj(map[
      "responseType" := JStr(HandlerPrompt),
      "payload" := JObj(map["fields" := JObj(map["richContent" := JArr([JArr([PlainHammerItem()])])])])])
  }

  /** A plain object is not a struct, so the plainly written reply yields no product at all. */
  lemma PlainHammerReply(ids: IdSource)
    ensures ExtractProducts(JArr([PlainHammerMessage()]), ids) == []
  {
    var msg, item := PlainHammerMessage(), PlainHammerItem();
    assert Get(item, "structValue") == JUndef;
    assert !IsProductItem(item);
    assert RichContentOf(msg) == JArr([JArr([item])]);
    assert IsRichPrompt(msg);
    RichPromptsOne(msg);
    assert GroupItems([JArr([item])]) == GroupItems([]) + [item];
    assert MessageItems(msg) == [item];
    assert PromptItems([msg]) == PromptItems([]) + [item];
    assert [item][..0] == [];
    assert ProductItems([item]) == [];
  }

  /** An empty reply: no products and the fallback text. */
  lemma EmptyReply(ids: IdSource)
    ensures ExtractProducts(JArr([]), ids) == []
    ensures ExtractTextFromDialogflowResponse(JArr([])) == Fallback
  {
  }

  /** A handler prompt whose first text line is `Hi there`. */
  function GreetingMessage(): JValue {
    JObj(map["responseType" := JStr(HandlerPrompt), "text" := JObj(map["text" := JArr([JStr("Hi there")])])])
  }

  lemma GreetingText()
    ensures ExtractTextFromDialogflowResponse(JArr([GreetingMessage()])) == "Hi there"
  {
    assert TextLinesOf(GreetingMessage()) == JArr([JStr("Hi there")]);
    FirstTextPromptWins([GreetingMessage()], 0, "Hi there");
  }

  /** A chip item is not a product: a reply holding only a chip yields nothing. */
  lemma ChipReply(ids: IdSource)
    ensures ExtractProducts(EncodeReply([StructValue(map["type" := StringValue("chip")])]), ids) == []
  {
    var chip := StructValue(map["type" := StringValue("chip")]);
    AccessorRoundTrips("chip", false, [], map["type" := StringValue("chip")]);
    assert Get(JObj(map["type" := StringValue("chip")]), "type") == StringValue("chip");
    assert !IsProductItem(chip);
    var items := [chip];
    ReplyItems(items);
    assert items[..0] == [];
    assert ProductItems(items) == [];
  }
}
