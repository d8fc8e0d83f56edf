/** The campaign pack as the code in src/workflows/campaign_pack.py and src/web/app.py
    reads it out of the decoded JSON object. A key the code reads with `.get(k, "")` or
    `.get(k) or ""` is a plain string whose empty value also stands for the missing key;
    a key whose absence the code distinguishes from an empty value is an Option. */
module PackSchema {
  import opened Wrappers

  /** A JSON scalar as `int(...)` and truth tests see it: Missing is an absent key or null.
      A number with a fraction or an exponent decodes to a float: a finite one is `Float`,
      and `json.loads` also accepts the literals `NaN`, `Infinity` and `-Infinity`. */
  datatype Scalar = Missing | Bool(b: bool) | Int(i: int) | Float(x: real) | NaN | Infinity(negative: bool) | Str(s: string) {
    /** Python truthiness of the value. */
    predicate Truthy() {
      match this
      case Missing => false
      case Bool(b) => b
      case Int(i) => i != 0
      case Float(x) => x != 0.0
      case NaN => true
      case Infinity(_) => true
      case Str(s) => s != ""
    }
  }

  /** A top-level string key whose absence the code tells apart from a JSON null:
      `pack.get(k, d)` gives `d` for an absent key and `None` for a null. */
  datatype Field = Absent | Null | Text(s: string) {
    /** The text `f"{pack.get(k, d)}"` formats. */
    function Shown(d: string): (r: string)
      ensures this.Text? ==> r == s
      ensures this.Absent? ==> r == d
    {
      match this
      case Absent => d
      case Null => "None"
      case Text(s) => s
    }

    /** The value `pack.get(k, d)` passes on, None for a null. */
    function Value(d: string): (r: Option<string>)
      ensures r.None? <==> this.Null?
    {
      match this
      case Absent => Some(d)
      case Null => None
      case Text(s) => Some(s)
    }
  }

  /** A location's `map` object (field `mapSize`); an absent or empty `map` has both sizes Missing. */
  datatype MapSize = MapSize(width: Scalar, height: Scalar)

  datatype Location = Location(name: string, summary: string, encounters: seq<string>, mapSize: MapSize)

  datatype Npc = Npc(name: string, race: string, role: string, motivation: string, secret: string)

  datatype PlayerOption = PlayerOption(labelText: string, outcome: string)

  datatype Scene = Scene(title: string, location: string, setup: string, playerOptions: seq<PlayerOption>)

  /** One option of a decision-flow node: an edge labelled `labelText` (the `label` key) towards node `next`
      (the empty string stands for a missing, null or empty `next`). */
  datatype Choice = Choice(labelText: string, next: string)

  /** One decision-flow node (the empty id stands for a missing, null or empty `id`). */
  datatype FlowNode = FlowNode(id: string, text: string, options: seq<Choice>)

  datatype Handout = Handout(title: string, content: string)

  /** The decoded campaign pack. `decisionFlow` is None when `decision_flow` or its
      `nodes` is missing, null or empty; `locations` is empty when the key is missing,
      null or empty. */
  datatype Pack = Pack(
    title: Field,
    premise: Field,
    tone: Field,
    startingLocation: Field,
    locations: seq<Location>,
    npcs: seq<Npc>,
    scenes: seq<Scene>,
    decisionFlow: Option<seq<FlowNode>>,
    handouts: seq<Handout>)
}
