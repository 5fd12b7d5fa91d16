/**
 * The todo form: the validation schema a submission must pass, the
 * category options offered, the initial field values, and the submit step
 * that hands a validated candidate to the store.
 */
module TodoForm {
  import opened Wrappers
  import opened TodoTypes
  import opened TodoContext

  /** The raw values of the form's fields; the category is whatever string the select holds. */
  datatype FormValues = FormValues(
    activity: string,
    price: real,
    category: string,
    bookingRequired: bool,
    accessibility: real)

  /** The categories the select offers, in the order shown. */
  const TodoTypeOptions: seq<TodoType> :=
    [Education, Recreational, Social, Diy, Charity, Cooking, Relaxation, Music, Busywork]

  /** The literals the schema's enum accepts for the category field. */
  const SchemaTypeTags: seq<string> :=
    ["education", "recreational", "social", "diy", "charity", "cooking", "relaxation", "music", "busywork"]

  /** The values an untouched form holds. */
  const DefaultValues: FormValues := FormValues("", 0.0, "education", false, 0.5)

  /** One failed field rule. The accessibility rule has two bounds, each reported on its own. */
  datatype Issue =
    | ActivityRequired
    | PriceNegative
    | InvalidType
    | AccessibilityBelowMin
    | AccessibilityAboveMax

  /** The message the schema attaches to an issue, for the rules that name one. */
  function CustomMessage(i: Issue): (r: Option<string>)
    ensures r.Some? <==> i == ActivityRequired || i == PriceNegative
  {
    match i
    case ActivityRequired => Some("Activity is required")
    case PriceNegative => Some("Price must be positive")
    case _ => None
  }

  // The four field rules.

  predicate ActivityOk(v: FormValues) { |v.activity| >= 1 }

  predicate PriceOk(v: FormValues) { v.price >= 0.0 }

  predicate TypeOk(v: FormValues) { v.category in SchemaTypeTags }

  predicate AccessibilityOk(v: FormValues) { 0.0 <= v.accessibility && v.accessibility <= 1.0 }

  /** A submission passes the schema when every field rule holds. */
  predicate Valid(v: FormValues)
    ensures Valid(v) <==>
      && v.activity != []
      && v.price >= 0.0
      && ParseTag(v.category).Some?
      && 0.0 <= v.accessibility <= 1.0
  {
    TypeOkIffTag(v);
    ActivityOk(v) && PriceOk(v) && TypeOk(v) && AccessibilityOk(v)
  }

  /** The options of the select and the literals of the enum are the same nine categories, in the same order. */
  lemma TypeListsAgree()
    ensures TodoTypeOptions == AllTodoTypes
    ensures |SchemaTypeTags| == |TodoTypeOptions|
    ensures forall i :: 0 <= i < |SchemaTypeTags| ==> SchemaTypeTags[i] == Tag(TodoTypeOptions[i])
  {
  }

  /** The enum rule accepts a string exactly when it is the literal of some category. */
  lemma TypeOkIffTag(v: FormValues)
    ensures TypeOk(v) <==> ParseTag(v.category).Some?
  {
    TypeListsAgree();
    if ParseTag(v.category).Some? {
      var t := ParseTag(v.category).value;
      TodoTypeIsClosed();
      assert t in AllTodoTypes;
      var i :| 0 <= i < |AllTodoTypes| && AllTodoTypes[i] == t;
      assert SchemaTypeTags[i] == v.category;
    }
    if TypeOk(v) {
      var i :| 0 <= i < |SchemaTypeTags| && SchemaTypeTags[i] == v.category;
      assert Tag(TodoTypeOptions[i]) == v.category;
    }
  }

  /**
   * Every failed rule, in the order the schema lists the fields. The rules
   * are independent: each is reported whatever the others say.
   */
  function Issues(v: FormValues): (r: seq<Issue>)
    ensures ActivityRequired in r <==> v.activity == []
    ensures PriceNegative in r <==> v.price < 0.0
    ensures InvalidType in r <==> ParseTag(v.category).None?
    ensures AccessibilityBelowMin in r <==> v.accessibility < 0.0
    ensures AccessibilityAboveMax in r <==> v.accessibility > 1.0
    ensures r == [] <==> Valid(v)
  {
    TypeOkIffTag(v);
    (if ActivityOk(v) then [] else [ActivityRequired])
    + (if PriceOk(v) then [] else [PriceNegative])
    + (if TypeOk(v) then [] else [InvalidType])
    + (if v.accessibility >= 0.0 then [] else [AccessibilityBelowMin])
    + (if v.accessibility <= 1.0 then [] else [AccessibilityAboveMax])
  }

  /**
   * The schema applied to the form: on success the candidate the store
   * receives, carrying the submitted fields; otherwise every failed rule.
   */
  function Validate(v: FormValues): (r: Result<TodoInput, seq<Issue>>)
    ensures r.Success? <==> Valid(v)
    ensures r.Success? ==>
      && r.value.activity == v.activity
      && r.value.price == v.price
      && Tag(r.value.category) == v.category
      && r.value.bookingRequired == v.bookingRequired
      && r.value.accessibility == v.accessibility
    ensures r.Failure? ==> r.error == Issues(v) && r.error != []
  {
    TypeOkIffTag(v);
    match ParseTag(v.category)
    case Some(t) =>
      if Issues(v) == [] then
        Success(TodoInput(v.activity, v.price, t, v.bookingRequired, v.accessibility))
      else
        Failure(Issues(v))
    case None => Failure(Issues(v))
  }

  /**
   * A rejected submission carries the schema's own message for an empty
   * activity and for a negative price.
   */
  lemma RejectionMessages(v: FormValues)
    ensures v.activity == [] ==>
      Validate(v).Failure? && exists i :: i in Validate(v).error && CustomMessage(i) == Some("Activity is required")
    ensures v.price < 0.0 ==>
      Validate(v).Failure? && exists i :: i in Validate(v).error && CustomMessage(i) == Some("Price must be positive")
  {
    if v.activity == [] {
      assert ActivityRequired in Validate(v).error;
    }
    if v.price < 0.0 {
      assert PriceNegative in Validate(v).error;
    }
  }

  /** Whatever passes the schema becomes a well-formed record, whatever id and time it is given. */
  lemma ValidatedIsWellFormed(v: FormValues, id: string, now: Timestamp)
    requires Validate(v).Success?
    ensures WellFormed(NewTodo(Validate(v).value, id, now))
  {
  }

  /** The untouched form fails on the activity rule alone. */
  lemma DefaultsRejected()
    ensures Validate(DefaultValues) == Failure([ActivityRequired])
  {
    assert ParseTag(DefaultValues.category) == Some(Education);
    assert SchemaTypeTags[0] == DefaultValues.category;
    assert Issues(DefaultValues) == [ActivityRequired];
  }

  /** A price of zero and an accessibility at either end of [0, 1] are accepted. */
  lemma BoundsAccepted(activity: string, category: TodoType, bookingRequired: bool)
    requires activity != []
    ensures Validate(FormValues(activity, 0.0, Tag(category), bookingRequired, 0.0)).Success?
    ensures Validate(FormValues(activity, 0.0, Tag(category), bookingRequired, 1.0)).Success?
  {
  }

  /**
   * Submitting the form: the store grows only when the values pass the
   * schema; a rejected submission leaves it as it was.
   */
  method Submit(store: TodoProvider, v: FormValues, freshId: string, now: Timestamp)
    returns (r: Result<TodoInput, seq<Issue>>)
    requires Valid(v) ==> freshId !in Ids(store.todos)
    modifies store
    ensures r == Validate(v)
    ensures r.Failure? ==> store.todos == old(store.todos)
    ensures r.Success? ==> store.todos == Added(old(store.todos), r.value, freshId, now)
    ensures UniqueIds(old(store.todos)) ==> UniqueIds(store.todos)
    ensures AllWellFormed(old(store.todos)) ==> AllWellFormed(store.todos)
  {
    r := Validate(v);
    if r.Success? {
      if AllWellFormed(store.todos) {
        ValidatedIsWellFormed(v, freshId, now);
        AddedKeepsWellFormed(store.todos, r.value, freshId, now);
      }
      store.AddTodo(r.value, freshId, now);
    }
  }
}
