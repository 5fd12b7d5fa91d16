/**
 * The record types of the todo list: the closed set of activity categories
 * and the seven-field todo record, with the predicates that say when a list
 * of records is well formed.
 */
module TodoTypes {
  import opened Wrappers

  /** The nine activity categories. */
  datatype TodoType =
    | Education
    | Recreational
    | Social
    | Diy
    | Charity
    | Cooking
    | Relaxation
    | Music
    | Busywork

  /** The string literal each category is written as, in storage and in the form. */
  function Tag(t: TodoType): string
  {
    match t
    case Education => "education"
    case Recreational => "recreational"
    case Social => "social"
    case Diy => "diy"
    case Charity => "charity"
    case Cooking => "cooking"
    case Relaxation => "relaxation"
    case Music => "music"
    case Busywork => "busywork"
  }

  /** The categories in declaration order. */
  const AllTodoTypes: seq<TodoType> :=
    [Education, Recreational, Social, Diy, Charity, Cooking, Relaxation, Music, Busywork]

  /** Reads a string literal back as a category; any other string is not one. */
  function ParseTag(s: string): (r: Option<TodoType>)
    ensures forall t :: r == Some(t) <==> Tag(t) == s
  {
    if s == "education" then Some(Education)
    else if s == "recreational" then Some(Recreational)
    else if s == "social" then Some(Social)
    else if s == "diy" then Some(Diy)
    else if s == "charity" then Some(Charity)
    else if s == "cooking" then Some(Cooking)
    else if s == "relaxation" then Some(Relaxation)
    else if s == "music" then Some(Music)
    else if s == "busywork" then Some(Busywork)
    else None
  }

  /** The union is closed: exactly nine categories, every one listed once, with distinct literals. */
  lemma TodoTypeIsClosed()
    ensures |AllTodoTypes| == 9
    ensures forall t: TodoType :: t in AllTodoTypes
    ensures forall i, j :: 0 <= i < j < |AllTodoTypes| ==> Tag(AllTodoTypes[i]) != Tag(AllTodoTypes[j])
  {
    forall t: TodoType ensures t in AllTodoTypes {
      match t
      case Education => assert AllTodoTypes[0] == t;
      case Recreational => assert AllTodoTypes[1] == t;
      case Social => assert AllTodoTypes[2] == t;
      case Diy => assert AllTodoTypes[3] == t;
      case Charity => assert AllTodoTypes[4] == t;
      case Cooking => assert AllTodoTypes[5] == t;
      case Relaxation => assert AllTodoTypes[6] == t;
      case Music => assert AllTodoTypes[7] == t;
      case Busywork => assert AllTodoTypes[8] == t;
    }
  }

  /** Distinct categories are written differently, so a tag names at most one category. */
  lemma TagInjective(a: TodoType, b: TodoType)
    ensures Tag(a) == Tag(b) ==> a == b
  {
    if Tag(a) == Tag(b) {
      assert ParseTag(Tag(a)) == Some(a);
    }
  }

  /** When a todo was created; Dafny sees only that timestamps can be compared for equality. */
  type Timestamp(==, !new)

  /** A todo record: all seven fields are always present. */
  datatype Todo = Todo(
    id: string,
    activity: string,
    price: real,
    category: TodoType,
    bookingRequired: bool,
    accessibility: real,
    createdAt: Timestamp)

  /** The identifiers in use in a list. */
  function Ids(todos: seq<Todo>): set<string>
  {
    set t | t in todos :: t.id
  }

  /** No two records of the list share an identifier. */
  predicate UniqueIds(todos: seq<Todo>)
  {
    forall i, j :: 0 <= i < |todos| && 0 <= j < |todos| && todos[i].id == todos[j].id ==> i == j
  }

  /** The constraints on a record's values: a name, a non-negative price, accessibility in [0, 1]. */
  predicate WellFormed(t: Todo)
  {
    |t.activity| >= 1 && t.price >= 0.0 && 0.0 <= t.accessibility <= 1.0
  }

  predicate AllWellFormed(todos: seq<Todo>)
  {
    forall t :: t in todos ==> WellFormed(t)
  }

  /** Uniqueness of a list with a record in front of it, taken apart. */
  lemma UniqueIdsCons(t: Todo, rest: seq<Todo>)
    ensures UniqueIds([t] + rest) <==> t.id !in Ids(rest) && UniqueIds(rest)
  {
    var s := [t] + rest;
    if UniqueIds(s) {
      forall u | u in rest
        ensures u.id != t.id
      {
        var k :| 0 <= k < |rest| && rest[k] == u;
        assert s[k + 1] == u && s[0] == t;
      }
      forall i, j | 0 <= i < |rest| && 0 <= j < |rest| && rest[i].id == rest[j].id
        ensures i == j
      {
        assert s[i + 1] == rest[i] && s[j + 1] == rest[j];
      }
    }
    if t.id !in Ids(rest) && UniqueIds(rest) {
      forall i, j | 0 <= i < |s| && 0 <= j < |s| && s[i].id == s[j].id
        ensures i == j
      {
        if i > 0 && j > 0 {
          assert s[i] == rest[i - 1] && s[j] == rest[j - 1];
        }
      }
    }
  }
}
