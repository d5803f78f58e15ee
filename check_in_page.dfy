/**
 * The check-in form state of src/components/CheckInPage.jsx: the `logData`
 * record and the two handlers that update one of its fields.
 */
module CheckInPage {
  import opened ListToggle

  /** A field value of `logData`: `null`, a string, or an array of strings. */
  datatype Value = Null | Text(text: string) | Items(items: seq<string>)

  /** `logData` is updated with computed keys (`[category]: ...`), so it is a map from field names. */
  type LogData = map<string, Value>

  /** Whether the chip for `option` shows as selected: `field === option` or `field.includes(option)`. */
  predicate Selected(v: Value, option: string) {
    match v
    case Null => false
    case Text(t) => t == option
    case Items(xs) => option in xs
  }

  /** The single-choice fields of the form, set by `handleSelect`. */
  const SingleChoiceFields: set<string> := {"flow", "energy", "sexualActivity"}

  /** The multiple-choice fields of the form, flipped by `handleToggle`. */
  const MultiChoiceFields: set<string> := {"mood", "symptoms", "vaginalSymptoms"}

  /** The initial form: no flow, energy or sexual activity, no mood or symptoms, empty notes. */
  function InitialLogData(): (data: LogData)
    ensures data.Keys == SingleChoiceFields + MultiChoiceFields + {"notes"}
    ensures forall k :: k in SingleChoiceFields ==> data[k] == Null
    ensures forall k :: k in MultiChoiceFields ==> data[k] == Items([])
    ensures data["notes"] == Text("")
    ensures forall k, option :: k in data && k != "notes" ==> !Selected(data[k], option)
  {
    map[
      "flow" := Null,
      "mood" := Items([]),
      "energy" := Null,
      "symptoms" := Items([]),
      "vaginalSymptoms" := Items([]),
      "sexualActivity" := Null,
      "notes" := Text("")]
  }

  /** `handleSelect`: `{ ...prev, [category]: value }`. */
  function Select(data: LogData, category: string, value: Value): (r: LogData)
    ensures category in r && r[category] == value
    ensures r.Keys == data.Keys + {category}
    ensures forall k :: k in data && k != category ==> r[k] == data[k]
  {
    data[category := value]
  }

  /** Selecting an option makes it the one selected option of a single-choice field. */
  lemma SelectIsSingleChoice(data: LogData, category: string, option: string)
    ensures forall o :: Selected(Select(data, category, Text(option))[category], o) <==> o == option
  {
  }

  /** What `prev[category] || []` yields: a list, or a non-empty string (strings are truthy). */
  datatype Current = List(items: seq<string>) | Chars(text: string)

  /** `prev[category] || []`: a missing key, `null` and `""` are falsy and read as the empty list. */
  function CurrentOf(data: LogData, category: string): Current {
    if category !in data then List([])
    else
      match data[category]
      case Null => List([])
      case Text(t) => if t == "" then List([]) else Chars(t)
      case Items(xs) => List(xs)
  }

  /** `String.prototype.includes`: `v` occurs in `t` as a substring. */
  predicate Includes(t: string, v: string)
    decreases |t|
  {
    (|v| <= |t| && t[..|v|] == v) || (t != [] && Includes(t[1..], v))
  }

  /** `[...t]`: a string spread into the list of its characters. */
  function Spread(t: string): (r: seq<string>)
    ensures |r| == |t|
  {
    seq(|t|, i requires 0 <= i < |t| => [t[i]])
  }

  /** The outcome of the toggle updater: the new record, or the `TypeError` it throws. */
  datatype ToggleOutcome = Updated(data: LogData) | TypeError

  /**
   * `handleToggle`: remove every copy of a value the field includes,
   * append one it does not. On a non-empty string field, `includes` is a
   * substring test and `filter` does not exist, so a match throws.
   */
  function ToggleField(data: LogData, category: string, value: string): (r: ToggleOutcome)
    ensures r.TypeError? <==> CurrentOf(data, category).Chars? && Includes(CurrentOf(data, category).text, value)
    ensures r.Updated? ==> r.data.Keys == data.Keys + {category}
    ensures r.Updated? ==> forall k :: k in data && k != category ==> r.data[k] == data[k]
    ensures CurrentOf(data, category).List? ==>
      var xs := CurrentOf(data, category).items;
      && r.Updated? && r.data[category].Items?
      && (Selected(r.data[category], value) <==> !Selected(Items(xs), value))
      && (forall o :: o != value ==> multiset(r.data[category].items)[o] == multiset(xs)[o])
      && (value !in xs ==> r.data[category] == Items(xs + [value]))
      && (value in xs ==> r.data[category] == Items(RemoveAll(xs, value)))
    ensures CurrentOf(data, category).Chars? && r.Updated? ==>
      r.data[category] == Items(Spread(CurrentOf(data, category).text) + [value])
  {
    match CurrentOf(data, category)
    case List(xs) => Updated(data[category := Items(Toggle(xs, value))])
    case Chars(t) =>
      if Includes(t, value) then TypeError
      else Updated(data[category := Items(Spread(t) + [value])])
  }

  /** The first toggle of a missing, `null`, `""` or `[]` field gives the one-element list `[value]`. */
  lemma FirstToggle(data: LogData, category: string, value: string)
    requires category !in data || data[category] in {Null, Text(""), Items([])}
    ensures ToggleField(data, category, value) == Updated(data[category := Items([value])])
  {
    assert Toggle([], value) == [] + [value] == [value];
  }

  /**
   * On the initial form no toggle throws: every field reads as the empty
   * list, so the first toggle of any category stores `[value]`.
   */
  lemma InitialFormToggles(category: string, value: string)
    ensures ToggleField(InitialLogData(), category, value) == Updated(InitialLogData()[category := Items([value])])
  {
    FirstToggle(InitialLogData(), category, value);
  }

  /** Toggling a value that a list field does not hold, twice, restores the record. */
  lemma ToggleTwiceRestores(data: LogData, category: string, value: string)
    requires category in data && data[category].Items? && value !in data[category].items
    ensures ToggleField(data, category, value).Updated?
    ensures ToggleField(ToggleField(data, category, value).data, category, value) == Updated(data)
  {
    var xs := data[category].items;
    var once := data[category := Items(xs + [value])];
    var r1 := ToggleField(data, category, value);
    assert CurrentOf(data, category) == List(xs);
    assert r1.data == once by {
      assert r1.data.Keys == once.Keys;
      assert forall k :: k in once ==> r1.data[k] == once[k];
    }
    var r2 := ToggleField(once, category, value);
    assert CurrentOf(once, category) == List(xs + [value]);
    ListToggle.ToggleTwiceRestores(xs, value);
    assert r2.data == data by {
      assert r2.data.Keys == data.Keys;
      assert forall k :: k in data ==> r2.data[k] == data[k];
    }
  }

  /** The form state of the check-in page. */
  class CheckInForm {
    var logData: LogData

    constructor ()
      ensures logData == InitialLogData()
    {
      logData := InitialLogData();
    }

    /** `handleSelect(category, value)`: set the named field, leave the others. */
    method HandleSelect(category: string, value: Value)
      modifies this
      ensures logData == Select(old(logData), category, value)
      ensures forall k :: k in old(logData) && k != category ==> k in logData && logData[k] == old(logData)[k]
    {
      logData := Select(logData, category, value);
    }

    /**
     * `handleToggle(category, value)`: flip `value` in the named list field.
     * Returns whether the updater threw; the record is then left as it was.
     */
    method HandleToggle(category: string, value: string) returns (threw: bool)
      modifies this
      ensures threw <==> ToggleField(old(logData), category, value).TypeError?
      ensures !threw ==> logData == ToggleField(old(logData), category, value).data
      ensures threw ==> logData == old(logData)
    {
      var outcome := ToggleField(logData, category, value);
      if outcome.TypeError? {
        return true;
      }
      logData := outcome.data;
      return false;
    }
  }

}
