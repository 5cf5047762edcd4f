/**
 * The event form (`AddEventForm`): its field values, its error flags, the
 * selected category, the change handler that updates them, the submission
 * gate and the submit handler that hands the event to the shared list.
 */
module AddEvent {
  import opened Chars
  import opened Forms
  import opened EventPatterns
  import EventDates

  /** A value of the form: what an input reports is always text; the initial
      price and seats are the number 0. */
  datatype FieldValue = Text(s: string) | Number(n: nat)

  /** The string a regular expression test or a string comparison sees. */
  function AsString(v: FieldValue): string {
    match v
    case Text(s) => s
    case Number(n) => Decimal(n)
  }

  /** A submitted event: the form's values by field name, with its id. */
  type EventRecord = map<string, FieldValue>

  /** The `name`s of the inputs the form renders. */
  const InputNames: set<string> :=
    {"title", "description", "price", "city", "date", "startTime", "endTime", "category", "seats", "team"}

  /** The keys of `formData`: the inputs and the generated id. */
  const RecordKeys: set<string> := InputNames + {"id"}

  /** The keys of `fieldErrors` and of `validationConditions`, in declaration order. */
  const ErrorOrder: seq<string> := ["title", "description", "price", "city", "startTime", "seats", "team"]
  const ValidatedFields: set<string> := {"title", "description", "price", "city", "startTime", "seats", "team"}

  /** `validationConditions[fieldName].test(fieldValue)`: every expression
      accepts the empty string through its `(^$)` alternative. */
  function Condition(fieldName: string, fieldValue: string): (ok: bool)
    requires fieldName in ValidatedFields
    ensures fieldValue == "" ==> ok
  {
    fieldValue == "" ||
    match fieldName
    case "title" => TitlePattern(fieldValue)
    case "description" => DescriptionPattern(fieldValue)
    case "price" => NumeralPattern(fieldValue)
    case "city" => CityPattern(fieldValue)
    case "startTime" => TimePattern(fieldValue)
    case "seats" => NumeralPattern(fieldValue)
    case _ => TitlePattern(fieldValue)
  }

  /** The application-wide list of events (`addToEventsData` of the event
      context appends to it). */
  class EventList {
    var records: seq<EventRecord>

    constructor (initial: seq<EventRecord>)
      ensures records == initial
    {
      records := initial;
    }

    method AddToEventsData(event: EventRecord)
      modifies this
      ensures records == old(records) + [event]
    {
      records := records + [event];
    }
  }

  class EventForm {
    var formData: EventRecord
    var category: string
    var fieldErrors: map<string, bool>

    /** The form's keys never change, and every flag is set exactly when the
        current value of its field fails that field's expression. */
    ghost predicate Valid()
      reads this
    {
      && formData.Keys == RecordKeys
      && fieldErrors.Keys == ValidatedFields
      && forall k :: k in fieldErrors ==> fieldErrors[k] == !Condition(k, AsString(formData[k]))
    }

    /** The initial state; the id is the generated UUID. */
    constructor (id: string)
      ensures Valid()
      ensures formData == map[
        "id" := Text(id), "title" := Text(""), "description" := Text(""), "price" := Number(0),
        "city" := Text(""), "date" := Text(""), "startTime" := Text(""), "endTime" := Text(""),
        "category" := Text(""), "seats" := Number(0), "team" := Text("")]
      ensures category == ""
      ensures fieldErrors == map[
        "title" := false, "description" := false, "price" := false, "city" := false,
        "startTime" := false, "seats" := false, "team" := false]
    {
      formData := map[
        "id" := Text(id), "title" := Text(""), "description" := Text(""), "price" := Number(0),
        "city" := Text(""), "date" := Text(""), "startTime" := Text(""), "endTime" := Text(""),
        "category" := Text(""), "seats" := Number(0), "team" := Text("")];
      category := "";
      fieldErrors := map[
        "title" := false, "description" := false, "price" := false, "city" := false,
        "startTime" := false, "seats" := false, "team" := false];
      new;
      assert formData.Keys == RecordKeys;
      forall k | k in fieldErrors ensures fieldErrors[k] == !Condition(k, AsString(formData[k])) {
        if k == "price" || k == "seats" {
          assert AsString(formData[k]) == "0" by { assert Decimal(0) == "0"; }
          DecimalIsNumeral(0);
        } else {
          assert AsString(formData[k]) == "";
        }
      }
    }

    /** `handleValidation`: date, endTime and category have no expression and
        leave the flags alone; any other field's flag becomes the negated test. */
    method HandleValidation(fieldName: string, fieldValue: string)
      requires fieldName in InputNames
      modifies this`fieldErrors
      ensures fieldErrors ==
        if fieldName in {"date", "endTime", "category"} then old(fieldErrors)
        else old(fieldErrors)[fieldName := !Condition(fieldName, fieldValue)]
    {
      if fieldName != "date" && fieldName != "endTime" && fieldName != "category" {
        fieldErrors := fieldErrors[fieldName := !Condition(fieldName, fieldValue)];
      }
    }

    /** `eventHandleChange`: store the value under its field, overwrite the
        selected category with it whatever the field, and revalidate that one
        field. Clearing a field always clears its flag. */
    method EventHandleChange(name: string, value: string)
      requires Valid() && name in InputNames
      modifies this
      ensures Valid()
      ensures formData == old(formData)[name := Text(value)]
      ensures category == value
      ensures name in ValidatedFields ==> fieldErrors == old(fieldErrors)[name := !Condition(name, value)]
      ensures name !in ValidatedFields ==> fieldErrors == old(fieldErrors)
      ensures name in ValidatedFields && value == "" ==> !fieldErrors[name]
    {
      formData := formData[name := Text(value)];
      category := value;
      HandleValidation(name, value);
    }

    /** Some flag is set: the publish button is disabled and submit does nothing. */
    ghost predicate HasErrors()
      reads this
    {
      AnyFlagSet(fieldErrors)
    }

    /** `pushErrorsInArray`, which also drives `disabled` on the publish
        button: true exactly when some validated field's current value fails
        its expression. There is no date flag, so a past date never blocks. */
    method PushErrorsInArray() returns (blocked: bool)
      requires Valid()
      ensures blocked <==> HasErrors()
      ensures blocked <==> exists k :: k in ValidatedFields && !Condition(k, AsString(formData[k]))
    {
      assert Enumerates(ErrorOrder, fieldErrors) by {
        assert forall k :: k in ValidatedFields ==> k in ErrorOrder;
      }
      blocked := Forms.PushErrorsInArray(ErrorOrder, fieldErrors);
    }

    /** `handleSubmit`: with the gate open, append the form's values to the
        shared list once and go to `/added-event`; otherwise change nothing. */
    method HandleSubmit(events: EventList) returns (outcome: Outcome)
      requires Valid()
      modifies events
      ensures !HasErrors() ==> events.records == old(events.records) + [formData] && outcome == NavigateTo("/added-event")
      ensures HasErrors() ==> events.records == old(events.records) && outcome == Stay
    {
      var checkForErrors := PushErrorsInArray();
      if !checkForErrors {
        events.AddToEventsData(formData);
        outcome := NavigateTo("/added-event");
      } else {
        outcome := Stay;
      }
    }

    /** The date field's error, shown next to the date input only: never for
        an empty date, and for well-formed dates exactly when the chosen day is
        before today. */
    function DateFieldError(today: string): (shown: bool)
      reads this
      requires Valid()
      ensures formData["date"] == Text("") ==> !shown
      ensures var date := AsString(formData["date"]);
        EventDates.IsDateString(date) && EventDates.IsDateString(today) ==> (shown <==> EventDates.Earlier(date, today))
    {
      var date := AsString(formData["date"]);
      if EventDates.IsDateString(date) && EventDates.IsDateString(today) then
        EventDates.DateErrorMeansPast(date, today);
        EventDates.DateError(date, today)
      else
        EventDates.DateError(date, today)
    }
  }

  /** Choosing any day before today on a form without errors shows the date
      error but leaves the gate open: the form is still published. */
  method PublishWithPastDate(form: EventForm, events: EventList, date: string, today: string)
    returns (shown: bool, outcome: Outcome)
    requires form.Valid() && !form.HasErrors()
    requires EventDates.IsDateString(date) && EventDates.IsDateString(today) && EventDates.Earlier(date, today)
    modifies form, events
    ensures shown && outcome == NavigateTo("/added-event")
    ensures form.formData == old(form.formData)["date" := Text(date)]
    ensures events.records == old(events.records) + [form.formData]
  {
    form.EventHandleChange("date", date);
    shown := form.DateFieldError(today);
    outcome := form.HandleSubmit(events);
  }
}
