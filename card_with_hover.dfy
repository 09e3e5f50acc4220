/** The hover-reveal service card: a card that shows a summary (logo and a
    two-line title) until the pointer enters it, and a detail view (a joined
    title, the description and a bulleted list) while the pointer is over it. */
module CardWithHover {
  import opened JsValues

  /** The props a service card receives. `image`, `backImage` and
      `listItems` may be missing (undefined) in a card record. */
  datatype ServiceCard = ServiceCard(
    id: int,
    title1: string,
    title2: string,
    description: string,
    image: Option<string>,
    backImage: Option<string>,
    listItems: Option<seq<string>>)

  /** A child of the detail view's list: the description paragraph, or one
      bullet with its React key. */
  datatype Entry = Paragraph(text: string) | Bullet(key: nat, text: string)

  /** What a card renders. `logo` and `background` are image sources, which
      stay undefined when the card record has none. */
  datatype CardView =
    | Summary(logo: Option<string>, heading1: string, heading2: string, background: Option<string>)
    | Detail(heading: string, entries: seq<Entry>, background: Option<string>)

  /** `items.map((item, index) => <li key={index}>{item}</li>)`, with the
      keys counted from `key`. */
  function Bullets(items: seq<string>, key: nat): (r: seq<Entry>)
    ensures |r| == |items|
    ensures forall i :: 0 <= i < |items| ==> r[i] == Bullet(key + i, items[i])
  {
    if items == [] then []
    else [Bullet(key, items[0])] + Bullets(items[1..], key + 1)
  }

  /** The joined heading of the detail view, `${title1} ${title2}`. */
  function JoinedTitle(title1: string, title2: string): string {
    title1 + " " + title2
  }

  /** The body of the detail view: the description, then one bullet per item. */
  function DetailEntries(description: string, items: seq<string>): (r: seq<Entry>)
    ensures |r| == 1 + |items|
    ensures r[0] == Paragraph(description)
    ensures forall i :: 0 <= i < |items| ==> r[i + 1] == Bullet(i, items[i])
  {
    [Paragraph(description)] + Bullets(items, 0)
  }

  /** The card of this component renders its props as they are: no image
      fallback, and `listItems.map` is called without a guard, so hovering a
      card without `listItems` throws. */
  function View(card: ServiceCard, isHovered: bool): (r: Result<CardView>)
    ensures r.TypeError? <==> isHovered && card.listItems.None?
    ensures r.Ok? ==> (r.value.Summary? <==> !isHovered)
    ensures r.Ok? ==> r.value.background == card.backImage
    ensures r.Ok? && r.value.Summary? ==>
      r.value.logo == card.image &&
      r.value.heading1 == card.title1 && r.value.heading2 == card.title2
    ensures r.Ok? && r.value.Detail? ==>
      |r.value.heading| == |card.title1| + 1 + |card.title2| &&
      r.value.heading[..|card.title1|] == card.title1 &&
      r.value.heading[|card.title1|] == ' ' &&
      r.value.heading[|card.title1| + 1..] == card.title2
    ensures r.Ok? && r.value.Detail? ==>
      var items := card.listItems.value;
      |r.value.entries| == 1 + |items| &&
      r.value.entries[0] == Paragraph(card.description) &&
      forall i :: 0 <= i < |items| ==> r.value.entries[i + 1] == Bullet(i, items[i])
  {
    if !isHovered then
      Ok(Summary(card.image, card.title1, card.title2, card.backImage))
    else if card.listItems.None? then
      TypeError
    else
      var heading := JoinedTitle(card.title1, card.title2);
      assert heading[..|card.title1|] == card.title1;
      assert heading[|card.title1| + 1..] == card.title2;
      Ok(Detail(heading, DetailEntries(card.description, card.listItems.value), card.backImage))
  }

  /** The hover state of one mounted card. */
  class HoverCard {
    const props: ServiceCard
    var isHovered: bool

    constructor (props: ServiceCard)
      ensures this.props == props
      ensures !isHovered
    {
      this.props := props;
      isHovered := false;
    }

    /** The pointer enters the card. */
    method MouseEnter()
      modifies this
      ensures isHovered
    {
      isHovered := true;
    }

    /** The pointer leaves the card. */
    method MouseLeave()
      modifies this
      ensures !isHovered
    {
      isHovered := false;
    }

    /** What the card currently renders. */
    function Render(): Result<CardView>
      reads this
    {
      View(props, isHovered)
    }
  }
}
