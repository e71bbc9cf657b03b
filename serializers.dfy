/**
 * The input validator of the ingest endpoint: a list of 1 to 1000 integer
 * ids, each between 1 and 10^9+7, and a priority that is one of the three
 * choices. Validation either yields the cleaned submission or reports the set
 * of fields that failed.
 */
module Serializers {
  import opened Results
  import opened Models

  const MinId := 1
  const MaxId := 1_000_000_007
  const MinLength := 1
  const MaxLength := 1000

  /** One element of the submitted `ids` list: a value the integer field can read as `n`, or not. */
  datatype RawItem = Int(n: int) | NotAnInteger

  /** The submitted `ids` value. */
  datatype RawIds = IdsMissing | IdsNull | IdsNotAList | IdsList(items: seq<RawItem>)

  /** The submitted `priority` value. */
  datatype RawPriority = PriorityMissing | PriorityNull | PriorityText(text: string)

  datatype RawSubmission = RawSubmission(ids: RawIds, priority: RawPriority)

  /** What the serializer hands to the view once the input is valid. */
  datatype Submission = Submission(ids: seq<int>, priority: Priority)

  /** The fields a validation error can be reported on. */
  datatype Field = IdsField | PriorityField

  predicate ValidItem(x: RawItem)
  {
    x.Int? && MinId <= x.n <= MaxId
  }

  /** The declarative constraint on `ids`. */
  predicate ValidIds(raw: RawIds)
  {
    && raw.IdsList?
    && MinLength <= |raw.items| <= MaxLength
    && forall i :: 0 <= i < |raw.items| ==> ValidItem(raw.items[i])
  }

  /** The declarative constraint on `priority`. */
  predicate ValidPriority(raw: RawPriority)
  {
    raw.PriorityText? && exists p :: raw.text == PriorityName(p)
  }

  predicate ValidSubmission(raw: RawSubmission)
  {
    ValidIds(raw.ids) && ValidPriority(raw.priority)
  }

  /** The child integer field with its bounds, applied to each list element in turn. */
  function ConvertItems(items: seq<RawItem>): (r: Option<seq<int>>)
    ensures r.Some? <==> forall i :: 0 <= i < |items| ==> ValidItem(items[i])
    ensures r.Some? ==> |r.value| == |items| && forall i :: 0 <= i < |items| ==> r.value[i] == items[i].n
  {
    if items == [] then Some([])
    else
      var rest := ConvertItems(items[1..]);
      if !ValidItem(items[0]) then None
      else if rest.None? then None
      else Some([items[0].n] + rest.value)
  }

  /** The `ids` list field: required, a list, every element a bounded integer, length 1 to 1000. */
  function IdsFieldValue(raw: RawIds): (r: Result<seq<int>, Field>)
    ensures r.Ok? <==> ValidIds(raw)
    ensures r.Ok? ==> |r.value| == |raw.items| && forall i :: 0 <= i < |r.value| ==> r.value[i] == raw.items[i].n
    ensures r.Err? ==> r.error == IdsField
  {
    match raw
    case IdsList(items) =>
      var converted := ConvertItems(items);
      if converted.None? then Err(IdsField)
      else if |converted.value| < MinLength || |converted.value| > MaxLength then Err(IdsField)
      else Ok(converted.value)
    case _ => Err(IdsField)
  }

  /** `validate_ids`: an empty list is an error, any other list is returned as it is. */
  function ValidateIdsHook(value: seq<int>): (r: Result<seq<int>, Field>)
    ensures r.Ok? <==> |value| > 0
    ensures r.Ok? ==> r.value == value
    ensures r.Err? ==> r.error == IdsField
  {
    if |value| == 0 then Err(IdsField) else Ok(value)
  }

  /** The `priority` choice field: required, and one of the stored priority values. */
  function PriorityFieldValue(raw: RawPriority): (r: Result<Priority, Field>)
    ensures r.Ok? <==> ValidPriority(raw)
    ensures r.Ok? ==> PriorityName(r.value) == raw.text
    ensures r.Err? ==> r.error == PriorityField
  {
    match raw
    case PriorityText(text) =>
      (match ParsePriority(text)
       case Some(p) => Ok(p)
       case None => Err(PriorityField))
    case _ => Err(PriorityField)
  }

  /** The field-level validation of `ids` followed by its `validate_ids` hook. */
  function CleanIds(raw: RawIds): (r: Result<seq<int>, Field>)
  {
    match IdsFieldValue(raw)
    case Ok(v) => ValidateIdsHook(v)
    case Err(e) => Err(e)
  }

  /**
   * `is_valid()`: every field is validated and the errors of all fields are
   * collected; the cleaned submission is returned only when there are none.
   */
  function Validate(raw: RawSubmission): (r: Result<Submission, set<Field>>)
    ensures r.Ok? <==> ValidSubmission(raw)
    ensures r.Ok? ==> r.value.ids == IntsOf(raw.ids.items) && PriorityName(r.value.priority) == raw.priority.text
    ensures r.Ok? ==> MinLength <= |r.value.ids| <= MaxLength
    ensures r.Ok? ==> forall i :: 0 <= i < |r.value.ids| ==> MinId <= r.value.ids[i] <= MaxId
    ensures r.Err? ==> r.error != {}
    ensures r.Err? ==> (IdsField in r.error <==> !ValidIds(raw.ids))
    ensures r.Err? ==> (PriorityField in r.error <==> !ValidPriority(raw.priority))
  {
    var ids := CleanIds(raw.ids);
    var priority := PriorityFieldValue(raw.priority);
    var errors := (if ids.Err? then {IdsField} else {}) + (if priority.Err? then {PriorityField} else {});
    if errors == {} then Ok(Submission(ids.value, priority.value)) else Err(errors)
  }

  /** The integers of a list of raw items (each element read as an integer). */
  function IntsOf(items: seq<RawItem>): (r: seq<int>)
    requires forall i :: 0 <= i < |items| ==> items[i].Int?
    ensures |r| == |items| && forall i :: 0 <= i < |items| ==> r[i] == items[i].n
  {
    seq(|items|, i requires 0 <= i < |items| => items[i].n)
  }

  /** The rejected payloads exercised by the service's API tests. */
  lemma RejectedPayloads()
    ensures Validate(RawSubmission(IdsList([]), PriorityText("HIGH"))) == Err({IdsField})
    ensures Validate(RawSubmission(IdsList([Int(1), Int(2), Int(3)]), PriorityMissing)) == Err({PriorityField})
    ensures Validate(RawSubmission(IdsMissing, PriorityText("HIGH"))) == Err({IdsField})
    ensures Validate(RawSubmission(IdsList([Int(1), Int(2), Int(3)]), PriorityText("INVALID"))) == Err({PriorityField})
    ensures Validate(RawSubmission(IdsList([NotAnInteger, NotAnInteger, NotAnInteger]), PriorityText("HIGH"))) == Err({IdsField})
  {
    var high, one23 := PriorityText("HIGH"), IdsList([Int(1), Int(2), Int(3)]);
    assert PriorityFieldValue(high).Ok? by {
      assert "HIGH" == PriorityName(High);
    }
    assert CleanIds(IdsList([])).Err?;
    assert Validate(RawSubmission(IdsList([]), high)).error == {IdsField};
    assert CleanIds(one23).Ok? by {
      assert ValidIds(one23);
    }
    assert Validate(RawSubmission(one23, PriorityMissing)).error == {PriorityField};
    assert PriorityFieldValue(PriorityText("INVALID")).Err? by {
      forall p: Priority ensures "INVALID" != PriorityName(p) {
        assert PriorityName(p)[0] != 'I';
      }
    }
  }

  /** A list either side of the length bounds, or with an id outside 1..10^9+7, is rejected. */
  lemma BoundsRejected(items: seq<RawItem>, priority: RawPriority)
    ensures |items| == 0 ==> IdsField in Validate(RawSubmission(IdsList(items), priority)).error
    ensures |items| > MaxLength ==> IdsField in Validate(RawSubmission(IdsList(items), priority)).error
    ensures (exists i :: 0 <= i < |items| && (items[i].NotAnInteger? || items[i].n < MinId || items[i].n > MaxId)) ==>
      IdsField in Validate(RawSubmission(IdsList(items), priority)).error
  {
  }
}
