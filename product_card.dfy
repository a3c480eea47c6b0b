/**
 * What the product card shows for one normalised product: the category
 * breadcrumb, at most three keyword chips, the stock label, the delivery
 * line and the image or its placeholder. Styling, icons and the image's
 * load-error handler are presentation and are left out.
 */
module ProductCard {
  import opened Wrappers
  import opened Strings
  import opened DialogflowParser

  const CourierLabel: string := "Courier Delivery"
  const CollectLabel: string := "Click & Collect"
  const DefaultCategoryPath: string := "General"
  const MaxKeywords: nat := 3

  /** The label of one delivery option: the two known codes are spelled out, anything else is shown as is. */
  function DeliveryLabel(option: string): string {
    if option == "courier" then CourierLabel
    else if option == "clickAndCollect" then CollectLabel
    else option
  }

  function DeliveryLabels(options: seq<string>): (r: seq<string>)
    ensures |r| == |options|
    ensures forall k :: 0 <= k < |r| ==> r[k] == DeliveryLabel(options[k])
  {
    seq(|options|, k requires 0 <= k < |options| => DeliveryLabel(options[k]))
  }

  /** `formatDeliveryOptions`: the labels, comma separated. */
  function FormatDeliveryOptions(options: seq<string>): (r: string)
    ensures options == [] ==> r == ""
    ensures |options| == 1 ==> r == DeliveryLabel(options[0])
  {
    Join(DeliveryLabels(options), ", ")
  }

  /** The delivery line of two option lists side by side is their lines joined by a comma. */
  lemma FormatDeliveryOptionsAppend(a: seq<string>, b: seq<string>)
    requires a != [] && b != []
    ensures FormatDeliveryOptions(a + b) == FormatDeliveryOptions(a) + ", " + FormatDeliveryOptions(b)
  {
    assert DeliveryLabels(a + b) == DeliveryLabels(a) + DeliveryLabels(b);
    JoinAppend(DeliveryLabels(a), DeliveryLabels(b), ", ");
  }

  /** Every normalised product carries the same two options, so its delivery line is fixed. */
  lemma DefaultDeliveryLine()
    ensures FormatDeliveryOptions(DefaultDeliveryOptions) == "Courier Delivery, Click & Collect"
  {
    FormatDeliveryOptionsAppend(["courier"], ["clickAndCollect"]);
    assert ["courier"] + ["clickAndCollect"] == DefaultDeliveryOptions;
    assert FormatDeliveryOptions(["courier"]) == CourierLabel;
    assert FormatDeliveryOptions(["clickAndCollect"]) == CollectLabel;
  }

  /** A group the breadcrumb may use: non-empty and not headed by the `root` category. */
  predicate IsNamedGroup(group: seq<Category>) {
    |group| > 0 && group[0].name != "root"
  }

  /** `categories.find(...)`, as the index of the first group the breadcrumb may use. */
  function FirstNamedGroup(categories: seq<seq<Category>>): (r: Option<nat>)
    ensures r.Some? ==> r.value < |categories| && IsNamedGroup(categories[r.value])
    ensures r.Some? ==> forall j :: 0 <= j < r.value ==> !IsNamedGroup(categories[j])
    ensures r.None? ==> forall j :: 0 <= j < |categories| ==> !IsNamedGroup(categories[j])
    decreases |categories|
  {
    if categories == [] then None
    else if IsNamedGroup(categories[0]) then Some(0)
    else
      match FirstNamedGroup(categories[1..])
      case None => None
      case Some(i) => Some(i + 1)
  }

  function Names(group: seq<Category>): (r: seq<string>)
    ensures |r| == |group|
    ensures forall k :: 0 <= k < |r| ==> r[k] == group[k].name
  {
    seq(|group|, k requires 0 <= k < |group| => group[k].name)
  }

  /**
   * `getCategoryPath`: the names of the first usable group joined by ` > `,
   * or `General` when there is none.
   */
  function GetCategoryPath(categories: seq<seq<Category>>): (r: string)
    ensures (forall j :: 0 <= j < |categories| ==> !IsNamedGroup(categories[j])) ==> r == DefaultCategoryPath
    ensures forall i :: 0 <= i < |categories| ==>
      IsNamedGroup(categories[i]) && (forall j :: 0 <= j < i ==> !IsNamedGroup(categories[j])) ==>
      r == Join(Names(categories[i]), " > ")
  {
    if |categories| > 0 then
      match FirstNamedGroup(categories)
      case Some(i) => Join(Names(categories[i]), " > ")
      case None => DefaultCategoryPath
    else DefaultCategoryPath
  }

  lemma {:induction false} FirstNamedGroupShift(skipped: seq<seq<Category>>, rest: seq<seq<Category>>)
    requires forall j :: 0 <= j < |skipped| ==> !IsNamedGroup(skipped[j])
    ensures FirstNamedGroup(skipped + rest) ==
      match FirstNamedGroup(rest)
      case Some(i) => Some(i + |skipped|)
      case None => None
    decreases |skipped|
  {
    if skipped == [] {
      assert skipped + rest == rest;
    } else {
      assert (skipped + rest)[1..] == skipped[1..] + rest;
      FirstNamedGroupShift(skipped[1..], rest);
    }
  }

  /** Groups the breadcrumb cannot use in front of the list change nothing. */
  lemma UnnamedGroupsSkipped(skipped: seq<seq<Category>>, rest: seq<seq<Category>>)
    requires forall j :: 0 <= j < |skipped| ==> !IsNamedGroup(skipped[j])
    ensures GetCategoryPath(skipped + rest) == GetCategoryPath(rest)
  {
    FirstNamedGroupShift(skipped, rest);
    match FirstNamedGroup(rest)
    case Some(i) =>
      assert (skipped + rest)[i + |skipped|] == rest[i];
    case None =>
  }

  /** The breadcrumb of a list starting with a usable group is that group's path. */
  lemma NamedGroupFirst(group: seq<Category>, rest: seq<seq<Category>>)
    requires IsNamedGroup(group)
    ensures GetCategoryPath([group] + rest) == Join(Names(group), " > ")
  {
    assert ([group] + rest)[0] == group;
  }

  lemma {:induction false} JoinNonEmpty(xs: seq<string>, sep: string)
    requires xs != [] && xs[0] != ""
    ensures Join(xs, sep) != ""
  {
    assert |Join(xs, sep)| >= |xs[0]|;
  }

  /** A product whose category names are all non-empty always shows a non-empty breadcrumb. */
  lemma CategoryPathNonEmpty(p: Product)
    requires WellFormed(p)
    ensures GetCategoryPath(p.categories) != ""
  {
    if |p.categories| > 0 {
      match FirstNamedGroup(p.categories)
      case Some(i) =>
        JoinNonEmpty(Names(p.categories[i]), " > ");
      case None =>
    }
  }

  /** The keyword chips: none when there are no keywords, else the first three. */
  function VisibleKeywords(keywords: seq<string>): (r: Option<seq<string>>)
    ensures r.None? <==> keywords == []
    ensures r.Some? ==> |r.value| == if |keywords| < MaxKeywords then |keywords| else MaxKeywords
    ensures r.Some? ==> r.value <= keywords
  {
    if |keywords| > 0 then
      Some(keywords[..if |keywords| < MaxKeywords then |keywords| else MaxKeywords])
    else None
  }

  /** The stock label. */
  function AvailabilityLabel(available: bool): (r: string)
    ensures r == "In Stock" <==> available
    ensures r == "Out of Stock" <==> !available
  {
    if available then "In Stock" else "Out of Stock"
  }

  /** The content of a rendered card. */
  datatype Card = Card(
    image: Option<string>,
    placeholderHidden: bool,
    categoryPath: string,
    title: string,
    description: string,
    keywords: Option<seq<string>>,
    availability: string,
    delivery: string,
    link: string)

  /** `ProductCard`: the card drawn for `p`. */
  function RenderCard(p: Product): (r: Card)
    ensures r.image.Some? <==> p.imageUrl != ""
    ensures r.image.Some? ==> r.image.value == p.imageUrl
    ensures r.placeholderHidden <==> r.image.Some?
    ensures r.title == p.title && r.description == p.description && r.link == p.productUrl
  {
    Card(
      image := if p.imageUrl != "" then Some(p.imageUrl) else None,
      placeholderHidden := p.imageUrl != "",
      categoryPath := GetCategoryPath(p.categories),
      title := p.title,
      description := p.description,
      keywords := VisibleKeywords(p.keywords),
      availability := AvailabilityLabel(p.availability),
      delivery := FormatDeliveryOptions(p.deliveryOptions),
      link := p.productUrl)
  }

  /**
   * A card drawn for any product the normaliser builds has a breadcrumb,
   * at most three chips, none of them blank, and the fixed delivery line.
   */
  lemma ExtractedProductCard(item: JsValue.JValue, id: string)
    requires ExtractProductFromItem(item, id).Some?
    ensures var c := RenderCard(ExtractProductFromItem(item, id).value);
      && c.categoryPath != ""
      && c.delivery == "Courier Delivery, Click & Collect"
      && (c.keywords.Some? ==>
            && |c.keywords.value| <= MaxKeywords
            && forall k :: 0 <= k < |c.keywords.value| ==> c.keywords.value[k] != "")
  {
    var p := ExtractProductFromItem(item, id).value;
    CategoryPathNonEmpty(p);
    DefaultDeliveryLine();
  }
}
