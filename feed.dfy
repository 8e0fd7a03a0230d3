/** The live-scores feed as the poller receives it: matches, their
    participants and their events, with every field as optional as the
    upstream JSON leaves it. */
module Feed {
  import Strings

  datatype Option<+T> = None | Some(value: T)

  /** A JSON scalar (floating-point numbers are not modelled). */
  datatype Value = Null | Bool(b: bool) | Num(n: int) | Text(s: string)

  /** Python's `str(v)`, which is also what an f-string prints. */
  function Display(v: Value): string
  {
    match v
    case Null => "None"
    case Bool(b) => if b then "True" else "False"
    case Num(n) => Strings.Decimal(n)
    case Text(s) => s
  }

  /** `str(obj.get(field, default))`: an absent field prints as the default. */
  function FieldText(f: Option<Value>, default: string): string
  {
    match f
    case None => default
    case Some(v) => Display(v)
  }

  /** Python truthiness of `obj.get(field)` (an absent field reads as `None`). */
  predicate Truthy(f: Option<Value>)
  {
    match f
    case None => false
    case Some(Null) => false
    case Some(Bool(b)) => b
    case Some(Num(n)) => n != 0
    case Some(Text(s)) => s != ""
  }

  /** One entry of a match's `events` list. `location` and `zone` are the
      fields of the event's `meta` object (absent when `meta` is). */
  datatype Event = Event(
    minute: Option<Value>,
    extra: Option<Value>,
    kind: Option<Value>,
    addition: Option<Value>,
    location: Option<Value>,
    zone: Option<Value>,
    description: Option<Value>)

  /** One entry of a match's `participants` list: an object with a name and a
      `meta.location`, or anything else, which the team lookup skips. */
  datatype Participant = Team(name: Option<Value>, side: Option<Value>) | NotAnObject

  /** One entry of the feed's `data` list; absent lists read as empty. */
  datatype Match = Match(
    id: Option<Value>,
    status: Option<Value>,
    participants: seq<Participant>,
    events: seq<Event>)
}
