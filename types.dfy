/** The records shared by the pages and the model client (types.ts). */
module Types {

  /** A value that may be absent (`undefined` / `null` in the application). */
  datatype Option<+T> = None | Some(value: T)

  /** Who wrote a chat message. */
  datatype MessageRole = User | Model

  /** Where a citation link points: a map place or a web page. */
  datatype SourceType = Maps | Web

  /** A citation attached to a model reply. */
  datatype GroundingLink = GroundingLink(title: string, uri: string, sourceType: SourceType)

  /** One entry of a chat transcript; `groundingLinks` is absent on user turns
      and on the welcome message. */
  datatype ChatMessage = ChatMessage(
    id: string,
    role: MessageRole,
    text: string,
    timestamp: int,
    groundingLinks: Option<seq<GroundingLink>>)

  /** The closed union of destination categories. */
  datatype Category = Culture | Nature | Food | City

  /** The string tag a category carries in the catalog. */
  function CategoryName(c: Category): (name: string)
    ensures name in {"culture", "nature", "food", "city"}
  {
    match c
    case Culture => "culture"
    case Nature => "nature"
    case Food => "food"
    case City => "city"
  }

  /** A catalog destination; the description and image fields are left out. */
  datatype Destination = Destination(
    id: string,
    name: string,
    japaneseName: string,
    category: Category,
    region: string)

  /** A catalog event; `month` is documented as 1..12, but typed as a plain number.
      The description and image fields are left out. */
  datatype JapanEvent = JapanEvent(
    id: string,
    name: string,
    japaneseName: string,
    date: string,
    month: int,
    location: string)

  /** The display languages the application offers. */
  datatype LanguageCode = En | Es | Fr | Zh | Ko

  /** The code string of a display language. */
  function LanguageTag(l: LanguageCode): string
  {
    match l
    case En => "en"
    case Es => "es"
    case Fr => "fr"
    case Zh => "zh"
    case Ko => "ko"
  }
}
