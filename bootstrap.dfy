/** `initPage`: read the page's context, pick the item to show from the data
    file's catalog, and either render it or write the not-found notice. The
    fetched data, and whether the page has a `main-content-area` element,
    are parameters; the DOM writes are returned as an `Effect`. */
module Bootstrap {
  import opened Wrappers
  import opened JsText
  import opened Catalog
  import opened PageContext
  import opened Render

  const NotFoundNotice := "<p class=\"note\" style=\"text-align: center;\">找不到對應的資料！</p>"

  /** How `initPage` ended: an early return, a rendered item, or no match. */
  datatype Outcome = NoOp | Rendered(item: Item, category: string) | NotFound

  /** The DOM writes: the content area's new `innerHTML` and the new
      `document.title`, each `None` when not written. */
  datatype Effect = Effect(content: Option<string>, title: Option<string>)

  /** `a === b` between an item's id and the page's id, as the lookup uses it:
      `undefined` and `null` equal no string. Unlike `===`, two missing ids do
      not compare equal; the lookup never compares two missing ids, because a
      `characters` or `guides` page always has an id (`LookupHasId`). */
  predicate StrictEquals(a: Option<string>, b: Option<string>)
  {
    a.Some? && b.Some? && a.value == b.value
  }

  /** Categories whose pages look their item up by id. */
  predicate IsLookupCategory(category: string)
  {
    category == "characters" || category == "guides"
  }

  /** `data && data[type] && data[type].length !== 0`. */
  predicate HasItems(data: Option<Catalog>, category: string)
  {
    data.Some? && category in data.value && |data.value[category]| > 0
  }

  /** `k` is the first index whose item's id is `id`. */
  predicate FirstMatch(items: seq<Item>, id: Option<string>, k: int)
  {
    0 <= k < |items| && StrictEquals(items[k].id, id) &&
    forall j :: 0 <= j < k ==> !StrictEquals(items[j].id, id)
  }

  /** `items.findIndex(item => item.id === id)`, as an option. */
  function FindIndex(items: seq<Item>, id: Option<string>): (r: Option<nat>)
    ensures r.Some? ==> FirstMatch(items, id, r.value)
    ensures r.None? ==> forall k :: 0 <= k < |items| ==> !StrictEquals(items[k].id, id)
    decreases |items|
  {
    if |items| == 0 then None
    else if StrictEquals(items[0].id, id) then Some(0)
    else
      match FindIndex(items[1..], id)
      case None => None
      case Some(i) =>
        assert forall j :: 1 <= j < i + 1 ==> items[j] == items[1..][j - 1];
        Some(i + 1)
  }

  /** `items.find(item => item.id === id)`: the first item with that id, or
      `undefined` when there is none. */
  function Find(items: seq<Item>, id: Option<string>): (r: Option<Item>)
    ensures r.None? <==> forall k :: 0 <= k < |items| ==> !StrictEquals(items[k].id, id)
    ensures r.Some? ==> exists k :: FirstMatch(items, id, k) && r.value == items[k]
  {
    match FindIndex(items, id)
    case None => None
    case Some(k) => Some(items[k])
  }

  /** A page in a lookup category always has an id to look for. */
  lemma LookupHasId(path: string)
    requires GetPageContext(path).category.Some?
    requires IsLookupCategory(GetPageContext(path).category.value)
    ensures GetPageContext(path).id.Some?
  {
  }

  /** `initPage`, after `getPageContext` and `fetchData`. */
  method InitPage(path: string, data: Option<Catalog>, hasContentArea: bool)
    returns (outcome: Outcome, effect: Effect)
    ensures var ctx := GetPageContext(path);
      outcome.NoOp? <==> ctx.category.None? || !HasItems(data, ctx.category.value)
    ensures var ctx := GetPageContext(path);
      outcome.NotFound? <==>
        && ctx.category.Some? && HasItems(data, ctx.category.value)
        && IsLookupCategory(ctx.category.value)
        && forall k :: 0 <= k < |data.value[ctx.category.value]| ==>
             !StrictEquals(data.value[ctx.category.value][k].id, ctx.id)
    ensures var ctx := GetPageContext(path);
      outcome.Rendered? ==> ctx.category == Some(outcome.category) && HasItems(data, outcome.category)
    ensures var ctx := GetPageContext(path);
      outcome.Rendered? && IsLookupCategory(outcome.category) ==>
        exists k :: FirstMatch(data.value[outcome.category], ctx.id, k) && outcome.item == data.value[outcome.category][k]
    ensures outcome.Rendered? && !IsLookupCategory(outcome.category) ==>
      outcome.item == data.value[outcome.category][0]
    ensures outcome.NoOp? ==> effect == Effect(None, None)
    ensures outcome.NotFound? ==>
      effect == Effect(if hasContentArea then Some(NotFoundNotice) else None, None)
    ensures outcome.Rendered? ==>
      effect == Effect(if hasContentArea then Some(Page(Blocks(outcome.item, outcome.category))) else None,
                       Some(PageTitle(outcome.item)))
  {
    var ctx := GetPageContext(path);
    if ctx.category.None? {
      return NoOp, Effect(None, None);
    }
    var category := ctx.category.value;
    if data.None? || category !in data.value || |data.value[category]| == 0 {
      return NoOp, Effect(None, None);
    }
    var items := data.value[category];

    var itemData: Option<Item>;
    if category == "characters" || category == "guides" {
      itemData := Find(items, ctx.id);
    } else {
      itemData := Some(items[0]);
    }

    if itemData.Some? {
      var html, title := RenderDetailItem(itemData.value, category);
      outcome := Rendered(itemData.value, category);
      effect := Effect(if hasContentArea then Some(html) else None, Some(title));
    } else {
      outcome := NotFound;
      effect := Effect(if hasContentArea then Some(NotFoundNotice) else None, None);
    }
  }
}
