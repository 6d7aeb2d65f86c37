/** The server-side records of src/unknown-globe/models.js and of lines 8-73
    of src/unknown-globe/blog/app/app.js. The two files carry the same
    PostSnippet class (constructor, getTitle, timeConverter,
    getCategoryByEnum), modelled once; their Post classes differ in the order
    of the last three constructor parameters and are modelled separately,
    together with the Datastore entity mapping of their callers.

    `new Date(date).getTime()` is taken to be the integer millisecond value
    `date` itself; the calendar fields JavaScript derives from it in the local
    timezone are supplied by a parameter `localDate`. */
module ServerModels {
  import opened Common
  import opened Js

  // ---------------------------------------------------------------------------
  // timeConverter

  type MonthIndex = m: int | 0 <= m < 12

  /** `getDate()`, `getMonth()` and `getFullYear()` of one instant. */
  datatype LocalDate = LocalDate(day: int, month: MonthIndex, year: int)

  /** The local calendar date of an instant, in milliseconds since the epoch. */
  type Calendar = int -> LocalDate

  const Months: seq<string> := ["Jan", "Feb", "Mar", "Apr", "May", "Jun",
                                "Jul", "Aug", "Sep", "Oct", "Nov", "Dec"]

  /** `timeConverter(rawTime)`: day, month abbreviation and full year, separated by spaces. */
  function TimeConverter(rawTime: int, localDate: Calendar): (r: string)
    ensures var a := localDate(rawTime);
      Split(r, ' ') == [IntToString(a.day), Months[a.month], IntToString(a.year)]
  {
    var a := localDate(rawTime);
    DateFieldsSplit(a);
    IntToString(a.day) + " " + Months[a.month] + " " + IntToString(a.year)
  }

  /** Day, month abbreviation and year joined by spaces split back into
      those three fields: none of them holds a space. */
  lemma DateFieldsSplit(a: LocalDate)
    ensures Split(IntToString(a.day) + " " + Months[a.month] + " " + IntToString(a.year), ' ')
         == [IntToString(a.day), Months[a.month], IntToString(a.year)]
  {
    var parts := [IntToString(a.day), Months[a.month], IntToString(a.year)];
    assert Join(parts, ' ') == IntToString(a.day) + " " + Months[a.month] + " " + IntToString(a.year) by {
      assert Join(parts[2..], ' ') == parts[2];
      assert Join(parts[1..], ' ') == parts[1] + " " + parts[2];
    }
    assert ' ' !in Months[a.month];
    SplitJoin(parts, ' ');
  }

  /** The month whose abbreviation is `name`, searching from index `m`. */
  function FindMonth(name: string, m: nat): Option<MonthIndex>
    requires m <= 12
    decreases 12 - m
  {
    if m == 12 then None
    else if Months[m] == name then Some(m)
    else FindMonth(name, m + 1)
  }

  /** Reads a formatted date back into its calendar fields. */
  function ParseDateString(s: string): Option<LocalDate>
  {
    var parts := Split(s, ' ');
    if |parts| != 3 then None
    else
      match (ParseInt(parts[0]), FindMonth(parts[1], 0), ParseInt(parts[2]))
      case (Some(day), Some(month), Some(year)) => Some(LocalDate(day, month, year))
      case _ => None
  }

  /** The twelve abbreviations are distinct, so each names its own month. */
  lemma {:induction false} FindMonthOfName(m: MonthIndex, from: nat)
    requires from <= m
    ensures FindMonth(Months[m], from) == Some(m)
    decreases m - from
  {
    if from < m {
      assert Months[from] != Months[m];
      FindMonthOfName(m, from + 1);
    }
  }

  /** The formatted date determines the calendar date it was made from: the
      output is exactly day, month abbreviation and year, in that order. */
  lemma TimeConverterRoundTrip(rawTime: int, localDate: Calendar)
    ensures ParseDateString(TimeConverter(rawTime, localDate)) == Some(localDate(rawTime))
  {
    var a := localDate(rawTime);
    IntToStringRoundTrip(a.day);
    IntToStringRoundTrip(a.year);
    FindMonthOfName(a.month, 0);
  }

  // ---------------------------------------------------------------------------
  // getCategoryByEnum

  /** The `categories` table; its keys are property names, i.e. strings. */
  const Categories: map<string, string> := map["1" := "Thoughts", "2" := "Travel", "3" := "Tech"]

  /** `categories[categoryId]`: the id is converted to a property name. */
  function GetCategoryByEnum(categoryId: Value): (r: Value)
    ensures r == Undefined || r.Str?
    ensures r.Str? <==> ToStr(categoryId) in Categories
    ensures r.Str? ==> r.s in Categories.Values
  {
    var key := ToStr(categoryId);
    if key in Categories then Str(Categories[key]) else Undefined
  }

  /** For a numeric id: 1, 2 and 3 name a category, every other number is undefined. */
  lemma CategoryOfNumber(n: int)
    ensures GetCategoryByEnum(Num(n)) ==
      if n == 1 then Str("Thoughts")
      else if n == 2 then Str("Travel")
      else if n == 3 then Str("Tech")
      else Undefined
  {
    IntToStringRoundTrip(n);
    assert ParseInt("1") == Some(1) && ParseInt("2") == Some(2) && ParseInt("3") == Some(3) by {
      assert AllDigits("1") && AllDigits("2") && AllDigits("3");
      assert ParseNat("") == 0;
      assert "1"[..0] == "" && "2"[..0] == "" && "3"[..0] == "";
    }
  }

  // ---------------------------------------------------------------------------
  // PostSnippet

  const DataKeys: set<string> := {"date", "dateString", "image", "title", "category"}

  /** The `data` object both constructors build from the same five inputs. */
  function SnippetData(date: int, image: Value, title: Value, categoryId: Value,
                       localDate: Calendar): (data: Object)
    ensures data.Keys == DataKeys
  {
    map["date" := Num(date),
        "dateString" := Str(TimeConverter(date, localDate)),
        "image" := image,
        "title" := title,
        "category" := GetCategoryByEnum(categoryId)]
  }

  /** `new PostSnippet(id, date, image, title, categoryId)`: own properties `id` and `data`. */
  function NewPostSnippet(id: Value, date: int, image: Value, title: Value, categoryId: Value,
                          localDate: Calendar): (o: Object)
    ensures o.Keys == {"id", "data"}
  {
    map["id" := id, "data" := Obj(SnippetData(date, image, title, categoryId, localDate))]
  }

  /** The constructor keeps `id` on top and files the rest under `data`, the
      category as its name and the date together with a string that reads
      back as that same date's calendar fields. */
  lemma SnippetLayout(id: Value, date: int, image: Value, title: Value, categoryId: Value,
                      localDate: Calendar)
    ensures var o := NewPostSnippet(id, date, image, title, categoryId, localDate);
      && o["id"] == id
      && o["data"].Obj?
      && var data := o["data"].props;
      && data["image"] == image && data["title"] == title
      && data["category"] == GetCategoryByEnum(categoryId)
      && data["date"] == Num(date) && data["dateString"].Str?
      && ParseDateString(data["dateString"].s) == Some(localDate(data["date"].n))
  {
    TimeConverterRoundTrip(date, localDate);
  }

  /** `getTitle()` as written: the own property `title`, which no constructor sets. */
  function GetTitle(o: Object): (r: Value)
    ensures "title" !in o ==> r == Undefined
    ensures "title" in o ==> r == o["title"]
  {
    Get(o, "title")
  }

  /** getTitle on a constructed snippet is undefined, whatever the title. */
  lemma GetTitleIsUndefined(id: Value, date: int, image: Value, title: Value, categoryId: Value,
                            localDate: Calendar)
    ensures GetTitle(NewPostSnippet(id, date, image, title, categoryId, localDate)) == Undefined
  {
  }

  /** A concrete snippet titled "Lisbon" whose getTitle is undefined. */
  lemma GetTitleCounterexample(localDate: Calendar)
    ensures var o := NewPostSnippet(Num(7), 0, Str("lisbon.jpg"), Str("Lisbon"), Num(2), localDate);
      o["data"].props["title"] == Str("Lisbon") && GetTitle(o) != Str("Lisbon")
  {
  }

  /** The evidently intended getTitle: the title stored under `data`. */
  function GetDataTitle(o: Object): Value
  {
    match Get(o, "data")
    case Obj(data) => Get(data, "title")
    case _ => Undefined
  }

  /** The corrected getTitle returns the constructor's title. */
  lemma DataTitleIsConstructorTitle(id: Value, date: int, image: Value, title: Value, categoryId: Value,
                                    localDate: Calendar)
    ensures GetDataTitle(NewPostSnippet(id, date, image, title, categoryId, localDate)) == title
  {
  }

  // ---------------------------------------------------------------------------
  // Post

  /** The content object: exactly the keys en, pl and pt. */
  function Content(en: Value, pl: Value, pt: Value): (c: Object)
    ensures c.Keys == {"en", "pl", "pt"}
  {
    map["en" := en, "pl" := pl, "pt" := pt]
  }

  /** A post: the snippet's `data` with `content` added. */
  function PostObject(id: Value, date: int, image: Value, title: Value, categoryId: Value,
                      content: Object, localDate: Calendar): (o: Object)
    ensures o.Keys == {"id", "data"}
  {
    map["id" := id,
        "data" := Obj(SnippetData(date, image, title, categoryId, localDate)["content" := Obj(content)])]
  }

  /** `new Post(id, date, image, title, categoryId, en, pt, pl)` of
      src/unknown-globe/models.js, with its parameter order. */
  function NewGlobePost(id: Value, date: int, image: Value, title: Value, categoryId: Value,
                        en: Value, pt: Value, pl: Value, localDate: Calendar): (o: Object)
    ensures o.Keys == {"id", "data"} && o["id"] == id
    ensures o["data"].Obj? && o["data"].props.Keys == DataKeys + {"content"}
    ensures ContentOf(o).Keys == {"en", "pl", "pt"}
    ensures ContentOf(o)["en"] == en && ContentOf(o)["pl"] == pl && ContentOf(o)["pt"] == pt
  {
    PostObject(id, date, image, title, categoryId, Content(en, pl, pt), localDate)
  }

  /** `new Post(id, date, image, title, categoryId, en, pl, pt)` of
      src/unknown-globe/blog/app/app.js, with its parameter order. */
  function NewBlogPost(id: Value, date: int, image: Value, title: Value, categoryId: Value,
                       en: Value, pl: Value, pt: Value, localDate: Calendar): (o: Object)
    ensures o.Keys == {"id", "data"} && o["id"] == id
    ensures o["data"].Obj? && o["data"].props.Keys == DataKeys + {"content"}
    ensures ContentOf(o).Keys == {"en", "pl", "pt"}
    ensures ContentOf(o)["en"] == en && ContentOf(o)["pl"] == pl && ContentOf(o)["pt"] == pt
  {
    PostObject(id, date, image, title, categoryId, Content(en, pl, pt), localDate)
  }

  /** `p` extends the snippet `s`: the same `id`, and a `data` that is the
      snippet's `data` plus `content`, with exactly the keys en, pl and pt. */
  ghost predicate Extends(p: Object, s: Object)
  {
    && "id" in p && "id" in s && p["id"] == s["id"]
    && "data" in p && "data" in s && p["data"].Obj? && s["data"].Obj?
    && p["data"].props.Keys == s["data"].props.Keys + {"content"}
    && (forall k :: k in s["data"].props ==> p["data"].props[k] == s["data"].props[k])
    && p["data"].props["content"].Obj?
    && p["data"].props["content"].props.Keys == {"en", "pl", "pt"}
  }

  /** Both Post classes extend PostSnippet: a post's `data` is the snippet's
      `data` for the same inputs plus `content`; nothing of the
      argument-less `super()` call survives. */
  lemma PostExtendsSnippet(id: Value, date: int, image: Value, title: Value, categoryId: Value,
                           en: Value, pl: Value, pt: Value, localDate: Calendar)
    ensures Extends(NewBlogPost(id, date, image, title, categoryId, en, pl, pt, localDate),
                    NewPostSnippet(id, date, image, title, categoryId, localDate))
    ensures Extends(NewGlobePost(id, date, image, title, categoryId, en, pt, pl, localDate),
                    NewPostSnippet(id, date, image, title, categoryId, localDate))
  {
  }

  /** A Datastore `Post` entity as the route handlers read it. */
  datatype Entity = Entity(key: Value, date: int, image: Value, title: Value, category: Value,
                           en: Value, pl: Value, pt: Value)

  /** The content text the entity holds for a language. */
  function EntityText(e: Entity, lang: string): Value
  {
    if lang == "en" then e.en else if lang == "pl" then e.pl else if lang == "pt" then e.pt else Undefined
  }

  /** The content of a post object, as an object. */
  function ContentOf(p: Object): Object
  {
    match Get(p, "data")
    case Obj(data) => (match Get(data, "content") case Obj(c) => c case _ => map[])
    case _ => map[]
  }

  /** src/unknown-globe/app.js getPostById and getLatestPost, which make the
      same call: `new Post(key.id, date, image, title, category, entity.en,
      entity.pl, entity.pt)` against the (en, pt, pl) constructor. */
  function GlobeEntityToPost(e: Entity, localDate: Calendar): (o: Object)
    ensures "id" in o && o["id"] == e.key
    ensures ContentOf(o).Keys == {"en", "pl", "pt"}
  {
    NewGlobePost(e.key, e.date, e.image, e.title, e.category, e.en, e.pl, e.pt, localDate)
  }

  /** As written, the served post carries the Portuguese text under `pl` and
      the Polish text under `pt`. */
  lemma GlobeEntitySwapsPlPt(e: Entity, localDate: Calendar)
    ensures var c := ContentOf(GlobeEntityToPost(e, localDate));
      c["en"] == e.en && c["pl"] == e.pt && c["pt"] == e.pl
  {
  }

  /** A concrete entity whose Polish text is served as Portuguese. */
  lemma GlobeSwapCounterexample(localDate: Calendar)
    ensures var e := Entity(Num(1), 0, Null, Str("t"), Num(1), Str("Hello"), Str("Cześć"), Str("Olá"));
      ContentOf(GlobeEntityToPost(e, localDate))["pl"] == Str("Olá") != e.pl
  {
  }

  /** src/unknown-globe/blog/app/app.js getPostById and getLatestPost: the
      same argument list against the (en, pl, pt) constructor. */
  function BlogEntityToPost(e: Entity, localDate: Calendar): (o: Object)
    ensures "id" in o && o["id"] == e.key
    ensures ContentOf(o).Keys == {"en", "pl", "pt"}
  {
    NewBlogPost(e.key, e.date, e.image, e.title, e.category, e.en, e.pl, e.pt, localDate)
  }

  /** Here every language's text is stored under its own key. */
  lemma BlogEntityKeepsLanguages(e: Entity, localDate: Calendar)
    ensures var c := ContentOf(BlogEntityToPost(e, localDate));
      forall lang :: lang in c <==> lang in {"en", "pl", "pt"}
    ensures forall lang :: lang in {"en", "pl", "pt"} ==>
      ContentOf(BlogEntityToPost(e, localDate))[lang] == EntityText(e, lang)
  {
  }

  /** `getContentByLanguage(lang)` of the blog Post: `this.data.content[lang]`. */
  function GetContentByLanguage(post: Object, lang: string): (r: Value)
    ensures lang !in ContentOf(post) ==> r == Undefined
    ensures lang in ContentOf(post) ==> r == ContentOf(post)[lang]
  {
    Get(ContentOf(post), lang)
  }

  /** On a post served by the blog routes, getContentByLanguage returns the
      entity's text for en, pl and pt, and undefined for any other language. */
  lemma ContentByLanguageMatchesEntity(e: Entity, lang: string, localDate: Calendar)
    ensures GetContentByLanguage(BlogEntityToPost(e, localDate), lang) == EntityText(e, lang)
  {
  }
}
