/** PostHelper of src/unknown-globe-std/models.py: it turns the dict of a
    Datastore post (`post.to_dict()`) into the structure the browser gets.

    Python values are modelled as far as the constructor distinguishes them:
    None, booleans, integers, strings and dates. `time.mktime` (local time,
    truncated by `int`) and `str` of a date are parameters. The output dicts,
    whose keys are fixed, are records with one field per key. */
module PyModels {
  import opened Common

  /** A calendar date (`datetime.date`). */
  datatype Date = Date(year: int, month: int, day: int)

  datatype PyValue = PyNone | PyBool(b: bool) | PyInt(i: int) | PyStr(s: string) | PyDate(d: Date)

  /** What the constructor can raise. */
  datatype PyError = KeyError(key: string) | AttributeError(name: string)

  /** Python truth value: None, False, 0 and '' are false; every date is true. */
  predicate Truthy(v: PyValue)
  {
    match v
    case PyNone => false
    case PyBool(b) => b
    case PyInt(i) => i != 0
    case PyStr(s) => s != ""
    case PyDate(_) => true
  }

  /** `str(v)`; `dateStr` is `str` of a date. */
  function Str(v: PyValue, dateStr: Date -> string): string
  {
    match v
    case PyNone => "None"
    case PyBool(b) => if b then "True" else "False"
    case PyInt(i) => IntToString(i)
    case PyStr(s) => s
    case PyDate(d) => dateStr(d)
  }

  /** `d.get(key, default)` */
  function GetOr(d: map<string, PyValue>, key: string, default: PyValue): PyValue
  {
    if key in d then d[key] else default
  }

  /** The integer a value is equal to as a dict key: booleans equal 0 and 1. */
  function AsInt(v: PyValue): Option<int>
  {
    match v
    case PyInt(i) => Some(i)
    case PyBool(b) => Some(if b then 1 else 0)
    case _ => None
  }

  /** `_category_enum_converter(category_id)`: `categories.get(category_id, None)`. */
  function CategoryName(categoryId: PyValue): (r: Option<string>)
    ensures r.Some? <==> AsInt(categoryId).Some? && 0 <= AsInt(categoryId).value <= 2
  {
    match AsInt(categoryId)
    case Some(0) => Some("Unclassified")
    case Some(1) => Some("Thoughts")
    case Some(2) => Some("Travel")
    case _ => None
  }

  /** The three integer ids of the table, and nothing else, name a category. */
  lemma CategoryTable(n: int)
    ensures CategoryName(PyInt(n)) ==
      if n == 0 then Some("Unclassified")
      else if n == 1 then Some("Thoughts")
      else if n == 2 then Some("Travel")
      else None
  {
  }

  /** `self.data`; None values are Option's None. */
  datatype PostData = PostData(date: Option<int>, dateString: string, title: PyValue, image: PyValue,
                               category: Option<string>, content: map<string, PyValue>)

  datatype PostHelper = PostHelper(id: PyValue, data: PostData)

  /** The `date` entry: seconds since the epoch when the date is truthy,
      None when it is falsy; a missing key raises KeyError and a truthy value
      that is not a date has no `timetuple`. */
  function DateSeconds(data: map<string, PyValue>, mktime: Date -> int): (r: Result<Option<int>, PyError>)
    ensures "date" !in data ==> r == Err(KeyError("date"))
    ensures "date" in data && !Truthy(data["date"]) ==> r == Ok(None)
    ensures "date" in data && data["date"].PyDate? ==> r == Ok(Some(mktime(data["date"].d)))
    ensures r.Err? <==> "date" !in data || (Truthy(data["date"]) && !data["date"].PyDate?)
  {
    if "date" !in data then Err(KeyError("date"))
    else if !Truthy(data["date"]) then Ok(None)
    else match data["date"]
      case PyDate(d) => Ok(Some(mktime(d)))
      case _ => Err(AttributeError("timetuple"))
  }

  /** `PostHelper(id, data)` */
  function NewPostHelper(id: PyValue, data: map<string, PyValue>, mktime: Date -> int,
                         dateStr: Date -> string): (r: Result<PostHelper, PyError>)
    ensures r.Err? <==> DateSeconds(data, mktime).Err?
    ensures r.Ok? ==> r.value.id == id && r.value.data.content.Keys == {"en", "pl", "pt"}
    ensures r.Ok? && "category" in data ==> r.value.data.category == CategoryName(data["category"])
  {
    match DateSeconds(data, mktime)
    case Err(e) => Err(e)
    case Ok(date) =>
      Ok(PostHelper(id, PostData(
        date,
        Str(GetOr(data, "date", PyNone), dateStr),
        GetOr(data, "title", PyNone),
        GetOr(data, "image", PyNone),
        CategoryName(GetOr(data, "category", PyInt(0))),
        map["en" := GetOr(data, "en", PyNone),
            "pl" := GetOr(data, "pl", PyNone),
            "pt" := GetOr(data, "pt", PyNone)])))
  }

  /** The dict `get_post` returns. */
  datatype PostDict = PostDict(id: PyValue, data: PostData)

  /** `get_post()` */
  function GetPost(helper: PostHelper): (r: PostDict)
    ensures r.id == helper.id && r.data == helper.data
  {
    PostDict(helper.id, helper.data)
  }

  /** A post without a category is 'Unclassified'. */
  lemma MissingCategoryIsUnclassified(id: PyValue, data: map<string, PyValue>, mktime: Date -> int,
                                      dateStr: Date -> string)
    requires "date" in data && !(Truthy(data["date"]) && !data["date"].PyDate?)
    requires "category" !in data
    ensures var r := NewPostHelper(id, data, mktime, dateStr);
      r.Ok? && r.value.data.category == Some("Unclassified")
  {
  }

  /** A stored category goes through the converter: an integer id gets its
      table name, and a stored None gets None, not 'Unclassified'. */
  lemma StoredCategoryIsConverted(id: PyValue, data: map<string, PyValue>, mktime: Date -> int,
                                  dateStr: Date -> string)
    requires "date" in data && !(Truthy(data["date"]) && !data["date"].PyDate?)
    requires "category" in data
    ensures var r := NewPostHelper(id, data, mktime, dateStr);
      && r.Ok?
      && (data["category"] == PyInt(0) ==> r.value.data.category == Some("Unclassified"))
      && (data["category"] == PyInt(1) ==> r.value.data.category == Some("Thoughts"))
      && (data["category"] == PyInt(2) ==> r.value.data.category == Some("Travel"))
      && (data["category"].PyInt? && !(0 <= data["category"].i <= 2) ==> r.value.data.category == None)
      && (data["category"] == PyNone ==> r.value.data.category == None)
  {
    if data["category"].PyInt? {
      CategoryTable(data["category"].i);
    }
  }

  /** Missing title, image and texts come out as None; present ones as given. */
  lemma AbsentFieldsAreNone(id: PyValue, data: map<string, PyValue>, mktime: Date -> int,
                            dateStr: Date -> string)
    requires NewPostHelper(id, data, mktime, dateStr).Ok?
    ensures var d := NewPostHelper(id, data, mktime, dateStr).value.data;
      && d.title == (if "title" in data then data["title"] else PyNone)
      && d.image == (if "image" in data then data["image"] else PyNone)
      && forall lang :: lang in d.content ==> d.content[lang] == (if lang in data then data[lang] else PyNone)
  {
  }

  /** A None date gives no timestamp and the date string 'None'. */
  lemma NoneDate(id: PyValue, data: map<string, PyValue>, mktime: Date -> int, dateStr: Date -> string)
    requires "date" in data && data["date"] == PyNone
    ensures var r := NewPostHelper(id, data, mktime, dateStr);
      r.Ok? && r.value.data.date == None && r.value.data.dateString == "None"
  {
  }

  /** A real date gives its timestamp and `str` of that date. */
  lemma DatedPost(id: PyValue, data: map<string, PyValue>, mktime: Date -> int, dateStr: Date -> string)
    requires "date" in data && data["date"].PyDate?
    ensures var r := NewPostHelper(id, data, mktime, dateStr);
      && r.Ok?
      && r.value.data.date == Some(mktime(data["date"].d))
      && r.value.data.dateString == dateStr(data["date"].d)
  {
  }

  /** get_post hands back the id exactly as given to the constructor. */
  lemma GetPostKeepsId(id: PyValue, data: map<string, PyValue>, mktime: Date -> int, dateStr: Date -> string)
    requires NewPostHelper(id, data, mktime, dateStr).Ok?
    ensures GetPost(NewPostHelper(id, data, mktime, dateStr).value).id == id
  {
  }
}
