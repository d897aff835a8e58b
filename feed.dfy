/**
 * The parsed RSS feed and its projection onto the entries of the terminal list.
 * Feeds are given data here: fetching and XML decoding are not part of this model.
 */
module Feed {

  /** One `<item>` of the channel; absent elements decode to empty text. */
  datatype RSSItem = RSSItem(
    title: string,
    link: string,
    description: string,
    id: string,
    publishDate: string,
    creator: string)

  /** The `<channel>` element: scalar fields and the items in document order. */
  datatype RSSFeed = RSSFeed(
    title: string,
    link: string,
    description: string,
    lastBuildDate: string,
    items: seq<RSSItem>)

  /** What the list widget shows for one item: its title, description and link. */
  datatype ListItem = ListItem(title: string, desc: string, link: string) {

    function Title(): string { title }

    function Description(): string { desc }

    /** The text the list widget filters on. */
    function FilterValue(): string { title }
  }

  /** The list entry built for one feed item. */
  function AsListItem(item: RSSItem): ListItem
  {
    ListItem(item.title, item.description, item.link)
  }

  /** Specification of the adapter: the entries of `items`, in order. */
  function ListItemsOf(items: seq<RSSItem>): (l: seq<ListItem>)
    ensures |l| == |items|
  {
    seq(|items|, i requires 0 <= i < |items| => AsListItem(items[i]))
  }

  /**
   * The adapter as the source runs it: allocate one slot per item, then fill
   * the slots front to back.
   */
  method ToListItems(items: seq<RSSItem>) returns (l: seq<ListItem>)
    ensures |l| == |items|
    ensures forall i :: 0 <= i < |items| ==>
      l[i].title == items[i].title && l[i].desc == items[i].description && l[i].link == items[i].link
    ensures l == ListItemsOf(items)
  {
    var a := new ListItem[|items|];
    for i := 0 to |items|
      invariant forall j :: 0 <= j < i ==> a[j] == AsListItem(items[j])
    {
      a[i] := ListItem(items[i].title, items[i].description, items[i].link);
    }
    l := a[..];
  }

  /** The adapter is order-preserving: it distributes over concatenation. */
  lemma ListItemsOfConcat(xs: seq<RSSItem>, ys: seq<RSSItem>)
    ensures ListItemsOf(xs + ys) == ListItemsOf(xs) + ListItemsOf(ys)
  {
  }

  /**
   * Only title, description and link reach the list: two feeds whose items agree
   * on those three fields give the same entries, whatever their ids, dates and creators.
   */
  lemma ListItemsIgnoreOtherFields(xs: seq<RSSItem>, ys: seq<RSSItem>)
    requires |xs| == |ys|
    requires forall i :: 0 <= i < |xs| ==>
      xs[i].title == ys[i].title && xs[i].description == ys[i].description && xs[i].link == ys[i].link
    ensures ListItemsOf(xs) == ListItemsOf(ys)
  {
  }

  /** The accessors of every entry give back its item's title and description; the filter key is the title. */
  lemma AccessorsOfListItems(items: seq<RSSItem>, i: int)
    requires 0 <= i < |items|
    ensures ListItemsOf(items)[i].Title() == items[i].title
    ensures ListItemsOf(items)[i].Description() == items[i].description
    ensures ListItemsOf(items)[i].FilterValue() == items[i].title
  {
  }

  /** Every entry of the list comes from some item, with that item's link. */
  lemma ListItemOrigin(items: seq<RSSItem>, e: ListItem)
    requires e in ListItemsOf(items)
    ensures exists i :: 0 <= i < |items| && items[i].link == e.link && items[i].title == e.title
  {
  }
}
