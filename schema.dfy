/**
 * The shared record shapes: the `ToolCategory` enumeration, the `tools` and
 * `users` rows, their insert shapes and the column defaults.
 */
module Schema {
  import opened Wrappers

  /** The seven members of `ToolCategory`; `All` is the "no filter" wildcard. */
  datatype Category = Text | Image | Audio | Video | Code | Data | All

  /** The string each enumeration member stands for. */
  function CategoryName(c: Category): string
  {
    match c
    case Text => "text"
    case Image => "image"
    case Audio => "audio"
    case Video => "video"
    case Code => "code"
    case Data => "data"
    case All => "all"
  }

  /** `Object.values(ToolCategory)`, in declaration order. */
  const CategoryOrder: seq<Category> := [Text, Image, Audio, Video, Code, Data, All]

  function CategoryValues(): (r: seq<string>)
    ensures |r| == |CategoryOrder|
    ensures forall i :: 0 <= i < |r| ==> r[i] == CategoryName(CategoryOrder[i])
  {
    seq(|CategoryOrder|, i requires 0 <= i < |CategoryOrder| => CategoryName(CategoryOrder[i]))
  }

  /** The strings of `Object.values(ToolCategory)`, written out. */
  lemma CategoryValuesListed()
    ensures CategoryValues() == ["text", "image", "audio", "video", "code", "data", "all"]
  {
    var v := CategoryValues();
    assert v[0] == "text" && v[1] == "image" && v[2] == "audio" && v[3] == "video";
    assert v[4] == "code" && v[5] == "data" && v[6] == "all";
  }

  /** The enumeration has exactly seven members, all listed, with distinct names. */
  lemma CategoryEnumeration()
    ensures |CategoryOrder| == 7
    ensures forall c: Category :: c in CategoryOrder
    ensures forall c, d: Category :: CategoryName(c) == CategoryName(d) ==> c == d
  {
    forall c: Category
      ensures c in CategoryOrder
    {
      var i := match c
        case Text => 0 case Image => 1 case Audio => 2 case Video => 3
        case Code => 4 case Data => 5 case All => 6;
      assert CategoryOrder[i] == c;
    }
  }

  /** `ToolCategoryType`: the member whose string is `s`, if any. */
  function ParseCategory(s: string): (r: Option<Category>)
    ensures r.Some? <==> s in CategoryValues()
    ensures r.Some? ==> CategoryName(r.value) == s
  {
    CategoryValuesListed();
    if s == "text" then Some(Text)
    else if s == "image" then Some(Image)
    else if s == "audio" then Some(Audio)
    else if s == "video" then Some(Video)
    else if s == "code" then Some(Code)
    else if s == "data" then Some(Data)
    else if s == "all" then Some(All)
    else None
  }

  /** Parsing a member's string gives the member back. */
  lemma ParseCategoryName(c: Category)
    ensures ParseCategory(CategoryName(c)) == Some(c)
  {
  }

  /** One element of the `useCases` JSON array. */
  datatype UseCase = UseCase(title: string, description: string, icon: string, iconColor: string)

  /**
   * `InsertTool`: a `tools` row without its `id`. `category` is a plain text
   * column, so any string can be stored; `rating` is an integer in hundredths
   * (480 stands for 4.8 out of 5) whose range nothing enforces.
   */
  datatype InsertTool = InsertTool(
    name: string,
    description: string,
    category: string,
    imageUrl: string,
    rating: int,
    tags: seq<string>,
    features: seq<string>,
    useCases: seq<UseCase>,
    isFeatured: bool,
    isPopular: bool,
    websiteUrl: Option<string>,
    apiUrl: Option<string>,
    icon: string,
    iconColor: string,
    updatedAt: string)

  /** `Tool`: a `tools` row, `InsertTool` plus the serial primary key `id`. */
  datatype Tool = Tool(
    id: int,
    name: string,
    description: string,
    category: string,
    imageUrl: string,
    rating: int,
    tags: seq<string>,
    features: seq<string>,
    useCases: seq<UseCase>,
    isFeatured: bool,
    isPopular: bool,
    websiteUrl: Option<string>,
    apiUrl: Option<string>,
    icon: string,
    iconColor: string,
    updatedAt: string)

  /** `{ ...insertTool, id }`. */
  function WithId(t: InsertTool, id: int): Tool
  {
    Tool(id, t.name, t.description, t.category, t.imageUrl, t.rating, t.tags, t.features,
         t.useCases, t.isFeatured, t.isPopular, t.websiteUrl, t.apiUrl, t.icon, t.iconColor,
         t.updatedAt)
  }

  /** The insert shape of a row: `.omit({ id: true })`. */
  function OmitId(t: Tool): InsertTool
  {
    InsertTool(t.name, t.description, t.category, t.imageUrl, t.rating, t.tags, t.features,
               t.useCases, t.isFeatured, t.isPopular, t.websiteUrl, t.apiUrl, t.icon,
               t.iconColor, t.updatedAt)
  }

  /** Adding an id and omitting it again are inverse. */
  lemma WithIdRoundTrip(t: InsertTool, id: int, row: Tool)
    ensures OmitId(WithId(t, id)) == t && WithId(t, id).id == id
    ensures WithId(OmitId(row), row.id) == row
  {
  }

  /** The documented rating scale: hundredths of a five-star score. */
  predicate RatingOnScale(rating: int)
  {
    0 <= rating <= 500
  }

  /**
   * The values an insert may leave out. Each column with a default (and the
   * nullable URLs) is optional; `name`, `description`, `category`,
   * `imageUrl` and `updatedAt` are required.
   */
  datatype ToolInput = ToolInput(
    name: string,
    description: string,
    category: string,
    imageUrl: string,
    rating: Option<int>,
    tags: Option<seq<string>>,
    features: Option<seq<string>>,
    useCases: Option<seq<UseCase>>,
    isFeatured: Option<bool>,
    isPopular: Option<bool>,
    websiteUrl: Option<string>,
    apiUrl: Option<string>,
    icon: Option<string>,
    iconColor: Option<string>,
    updatedAt: string)

  /** The column defaults, filled into every value the input leaves out. */
  function ApplyDefaults(input: ToolInput): (r: InsertTool)
    ensures input.rating.None? ==> r.rating == 0
    ensures input.tags.None? ==> r.tags == []
    ensures input.features.None? ==> r.features == []
    ensures input.useCases.None? ==> r.useCases == []
    ensures input.isFeatured.None? ==> !r.isFeatured
    ensures input.isPopular.None? ==> !r.isPopular
    ensures input.icon.None? ==> r.icon == "brain"
    ensures input.iconColor.None? ==> r.iconColor == "blue"
    ensures r.websiteUrl == input.websiteUrl && r.apiUrl == input.apiUrl
    ensures input.rating.Some? ==> r.rating == input.rating.value
    ensures input.tags.Some? ==> r.tags == input.tags.value
    ensures input.features.Some? ==> r.features == input.features.value
    ensures input.useCases.Some? ==> r.useCases == input.useCases.value
    ensures input.isFeatured.Some? ==> r.isFeatured == input.isFeatured.value
    ensures input.isPopular.Some? ==> r.isPopular == input.isPopular.value
    ensures input.icon.Some? ==> r.icon == input.icon.value
    ensures input.iconColor.Some? ==> r.iconColor == input.iconColor.value
    ensures r.name == input.name && r.description == input.description
    ensures r.category == input.category && r.imageUrl == input.imageUrl
    ensures r.updatedAt == input.updatedAt
  {
    InsertTool(
      input.name, input.description, input.category, input.imageUrl,
      input.rating.GetOr(0),
      input.tags.GetOr([]),
      input.features.GetOr([]),
      input.useCases.GetOr([]),
      input.isFeatured.GetOr(false),
      input.isPopular.GetOr(false),
      input.websiteUrl,
      input.apiUrl,
      input.icon.GetOr("brain"),
      input.iconColor.GetOr("blue"),
      input.updatedAt)
  }

  /** An insert record with every value given. */
  function FullInput(t: InsertTool): ToolInput
  {
    ToolInput(t.name, t.description, t.category, t.imageUrl, Some(t.rating), Some(t.tags),
              Some(t.features), Some(t.useCases), Some(t.isFeatured), Some(t.isPopular),
              t.websiteUrl, t.apiUrl, Some(t.icon), Some(t.iconColor), t.updatedAt)
  }

  /** An input that supplies every value is stored exactly as given. */
  lemma DefaultsKeepSuppliedValues(t: InsertTool)
    ensures ApplyDefaults(FullInput(t)) == t
  {
  }

  /** Supplying the filled-in values again changes nothing: defaulting is idempotent. */
  lemma DefaultsIdempotent(input: ToolInput)
    ensures ApplyDefaults(FullInput(ApplyDefaults(input))) == ApplyDefaults(input)
  {
    DefaultsKeepSuppliedValues(ApplyDefaults(input));
  }

  /** A `users` row; `username` is declared unique in the table. */
  datatype User = User(id: int, username: string, password: string)

  /** `InsertUser`: the picked `username` and `password`. */
  datatype InsertUser = InsertUser(username: string, password: string)

  /** `{ ...insertUser, id }`. */
  function UserWithId(u: InsertUser, id: int): (r: User)
    ensures r.id == id && InsertUser(r.username, r.password) == u
  {
    User(id, u.username, u.password)
  }
}
