/** The closed set of photo-session kinds an order can have. */
module OrderTypes {

  datatype OrderType = LoveStory | Family | Content

  /** The human-readable title shown for each kind of order. */
  function Name(t: OrderType): (r: string)
    ensures |r| > 0
  {
    match t
    case LoveStory => "Love story"
    case Family => "Семейная фотосессия"
    case Content => "Контент-сьемка"
  }

  /** Different kinds of order are shown under different titles, so the title
      identifies the kind. */
  lemma NameInjective(t: OrderType, u: OrderType)
    ensures Name(t) == Name(u) <==> t == u
  {
  }
}
