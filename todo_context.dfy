/**
 * The todo store: an ordered in-memory list of records with two mutations
 * (add and remove) and a hydration step that rebuilds the list from its
 * stored form. The list updates are pure sequence functions; the provider
 * object that owns the list applies them to its `todos` field.
 */
module TodoContext {
  import opened Wrappers
  import opened TodoTypes

  /** A candidate record: every field of a todo except `id` and `createdAt`. */
  datatype TodoInput = TodoInput(
    activity: string,
    price: real,
    category: TodoType,
    bookingRequired: bool,
    accessibility: real)

  /** The candidate fields of a record, with `id` and `createdAt` dropped. */
  function CandidateOf(t: Todo): TodoInput
  {
    TodoInput(t.activity, t.price, t.category, t.bookingRequired, t.accessibility)
  }

  // ---------------------------------------------------------------------------
  // Adding a record
  // ---------------------------------------------------------------------------

  /** The record `addTodo` builds: the candidate's fields plus a generated id and creation time. */
  function NewTodo(c: TodoInput, id: string, now: Timestamp): (t: Todo)
    ensures CandidateOf(t) == c && t.id == id && t.createdAt == now
  {
    Todo(id, c.activity, c.price, c.category, c.bookingRequired, c.accessibility, now)
  }

  /** The list after `addTodo`: the new record goes at the end. */
  function Added(todos: seq<Todo>, c: TodoInput, id: string, now: Timestamp): (r: seq<Todo>)
    ensures |r| == |todos| + 1
    ensures r[..|todos|] == todos
    ensures r[|todos|] == NewTodo(c, id, now)
  {
    todos + [NewTodo(c, id, now)]
  }

  /** Appending adds exactly the new identifier to the ones in use. */
  lemma AddedIds(todos: seq<Todo>, c: TodoInput, id: string, now: Timestamp)
    ensures Ids(Added(todos, c, id, now)) == Ids(todos) + {id}
  {
    var r := Added(todos, c, id, now);
    assert r == todos + [r[|todos|]];
    forall x | x in Ids(r) ensures x in Ids(todos) + {id} {
      var u :| u in r && u.id == x;
    }
    forall x | x in Ids(todos) + {id} ensures x in Ids(r) {
      if x == id {
        assert r[|todos|] in r;
      } else {
        var u :| u in todos && u.id == x;
        assert u in r;
      }
    }
  }

  /** With a fresh identifier, adding keeps the identifiers unique. */
  lemma AddedKeepsUniqueIds(todos: seq<Todo>, c: TodoInput, id: string, now: Timestamp)
    requires UniqueIds(todos)
    requires id !in Ids(todos)
    ensures UniqueIds(Added(todos, c, id, now))
  {
    var r := Added(todos, c, id, now);
    forall k | 0 <= k < |todos|
      ensures r[k] == todos[k] && r[k].id != id
    {
      assert todos[k] in todos;
    }
  }

  /** Adding a well-formed candidate keeps every record of the list well formed. */
  lemma AddedKeepsWellFormed(todos: seq<Todo>, c: TodoInput, id: string, now: Timestamp)
    requires AllWellFormed(todos)
    requires WellFormed(NewTodo(c, id, now))
    ensures AllWellFormed(Added(todos, c, id, now))
  {
    var r := Added(todos, c, id, now);
    assert r == todos + [NewTodo(c, id, now)];
  }

  // ---------------------------------------------------------------------------
  // Removing a record
  // ---------------------------------------------------------------------------

  /** The list after `removeTodo(id)`: every record with that id is filtered out. */
  function Removed(todos: seq<Todo>, id: string): (r: seq<Todo>)
    ensures |r| <= |todos|
    ensures forall t :: t in r <==> t in todos && t.id != id
  {
    if todos == [] then []
    else if todos[0].id == id then Removed(todos[1..], id)
    else [todos[0]] + Removed(todos[1..], id)
  }

  /** Removing drops exactly the identifier removed. */
  lemma RemovedIds(todos: seq<Todo>, id: string)
    ensures Ids(Removed(todos, id)) == Ids(todos) - {id}
  {
    var r := Removed(todos, id);
    forall x | x in Ids(r) ensures x in Ids(todos) - {id} {
      var u :| u in r && u.id == x;
    }
    forall x | x in Ids(todos) - {id} ensures x in Ids(r) {
      var u :| u in todos && u.id == x;
      assert u in r;
    }
  }

  /** Filtering works piece by piece, so the records kept stay in their relative order. */
  lemma {:induction false} RemovedConcat(a: seq<Todo>, b: seq<Todo>, id: string)
    ensures Removed(a + b, id) == Removed(a, id) + Removed(b, id)
  {
    if a == [] {
      assert a + b == b;
    } else {
      assert (a + b)[0] == a[0];
      assert (a + b)[1..] == a[1..] + b;
      RemovedConcat(a[1..], b, id);
    }
  }

  /** Removing an identifier that is not in use leaves the list as it was. */
  lemma {:induction false} RemovedAbsent(todos: seq<Todo>, id: string)
    requires id !in Ids(todos)
    ensures Removed(todos, id) == todos
  {
    if todos != [] {
      assert todos[0] in todos;
      assert Ids(todos[1..]) <= Ids(todos) by {
        forall x | x in Ids(todos[1..]) ensures x in Ids(todos) {
          var u :| u in todos[1..] && u.id == x;
          assert u in todos;
        }
      }
      RemovedAbsent(todos[1..], id);
      assert todos == [todos[0]] + todos[1..];
    }
  }

  /** Removing twice is the same as removing once. */
  lemma RemovedIdempotent(todos: seq<Todo>, id: string)
    ensures Removed(Removed(todos, id), id) == Removed(todos, id)
  {
    RemovedIds(todos, id);
    RemovedAbsent(Removed(todos, id), id);
  }

  /** An id that no record of the list carries is not in use. */
  lemma NotInIds(todos: seq<Todo>, id: string)
    requires forall i :: 0 <= i < |todos| ==> todos[i].id != id
    ensures id !in Ids(todos)
  {
    forall u | u in todos ensures u.id != id {
      var i :| 0 <= i < |todos| && todos[i] == u;
    }
  }

  /**
   * With unique identifiers, removing the id of the record at index k takes
   * out that one record and nothing else.
   */
  lemma RemovedAt(todos: seq<Todo>, k: nat)
    requires UniqueIds(todos)
    requires k < |todos|
    ensures Removed(todos, todos[k].id) == todos[..k] + todos[k + 1..]
    ensures |Removed(todos, todos[k].id)| == |todos| - 1
  {
    var id := todos[k].id;
    var front, rest, back := todos[..k], todos[k..], todos[k + 1..];
    assert todos == front + rest;
    assert rest[0] == todos[k] && rest[1..] == back;
    assert front == todos[..k];
    assert forall i :: 0 <= i < |front| ==> front[i] == todos[i];
    assert forall i :: 0 <= i < |back| ==> back[i] == todos[k + 1 + i];
    NotInIds(front, id);
    NotInIds(back, id);
    RemovedConcat(front, rest, id);
    RemovedAbsent(front, id);
    RemovedAbsent(back, id);
    assert Removed(rest, id) == back;
  }

  /** Removing keeps the identifiers unique. */
  lemma {:induction false} RemovedKeepsUniqueIds(todos: seq<Todo>, id: string)
    requires UniqueIds(todos)
    ensures UniqueIds(Removed(todos, id))
  {
    if todos != [] {
      assert todos == [todos[0]] + todos[1..];
      UniqueIdsCons(todos[0], todos[1..]);
      RemovedKeepsUniqueIds(todos[1..], id);
      if todos[0].id != id {
        RemovedIds(todos[1..], id);
        UniqueIdsCons(todos[0], Removed(todos[1..], id));
      }
    }
  }

  /** Removing the record just added with a fresh id gives back the list before the add. */
  lemma AddThenRemove(todos: seq<Todo>, c: TodoInput, id: string, now: Timestamp)
    requires id !in Ids(todos)
    ensures Removed(Added(todos, c, id, now), id) == todos
  {
    var t := NewTodo(c, id, now);
    assert Added(todos, c, id, now) == todos + [t];
    RemovedConcat(todos, [t], id);
    RemovedAbsent(todos, id);
    assert [t][1..] == [];
  }

  // ---------------------------------------------------------------------------
  // Persistence: the stored form and hydration
  // ---------------------------------------------------------------------------

  /** A record as it comes back from storage: `createdAt` is the text the timestamp was saved as. */
  datatype StoredTodo = StoredTodo(
    id: string,
    activity: string,
    price: real,
    category: TodoType,
    bookingRequired: bool,
    accessibility: real,
    createdAt: string)

  /** The stored form of one record; `toIso` is how a timestamp is written out as text. */
  function Dehydrate(t: Todo, toIso: Timestamp -> string): (s: StoredTodo)
    ensures s.id == t.id
    ensures TodoInput(s.activity, s.price, s.category, s.bookingRequired, s.accessibility) == CandidateOf(t)
    ensures s.createdAt == toIso(t.createdAt)
  {
    StoredTodo(t.id, t.activity, t.price, t.category, t.bookingRequired, t.accessibility, toIso(t.createdAt))
  }

  /** What the save step writes: every record of the list, in order. */
  function Snapshot(todos: seq<Todo>, toIso: Timestamp -> string): (r: seq<StoredTodo>)
    ensures |r| == |todos|
    ensures forall i :: 0 <= i < |r| ==> r[i] == Dehydrate(todos[i], toIso)
  {
    if todos == [] then [] else [Dehydrate(todos[0], toIso)] + Snapshot(todos[1..], toIso)
  }

  /** One stored record brought back: every field kept, `createdAt` rebuilt by `parseDate`. */
  function Rehydrate(s: StoredTodo, parseDate: string -> Timestamp): (t: Todo)
    ensures t.id == s.id
    ensures CandidateOf(t) == TodoInput(s.activity, s.price, s.category, s.bookingRequired, s.accessibility)
    ensures t.createdAt == parseDate(s.createdAt)
  {
    Todo(s.id, s.activity, s.price, s.category, s.bookingRequired, s.accessibility, parseDate(s.createdAt))
  }

  /** The list rebuilt from the parsed stored list: same length, same order, record by record. */
  function Hydrate(stored: seq<StoredTodo>, parseDate: string -> Timestamp): (r: seq<Todo>)
    ensures |r| == |stored|
    ensures forall i :: 0 <= i < |r| ==> r[i] == Rehydrate(stored[i], parseDate)
  {
    if stored == [] then [] else [Rehydrate(stored[0], parseDate)] + Hydrate(stored[1..], parseDate)
  }

  /** The load step: with nothing stored the list stays as it was, otherwise it is the hydrated list. */
  function Loaded(current: seq<Todo>, stored: Option<seq<StoredTodo>>, parseDate: string -> Timestamp): (r: seq<Todo>)
    ensures stored.None? ==> r == current
    ensures stored.Some? ==> |r| == |stored.value|
    ensures stored.Some? ==> forall i :: 0 <= i < |r| ==> r[i] == Rehydrate(stored.value[i], parseDate)
  {
    match stored
    case None => current
    case Some(parsed) => Hydrate(parsed, parseDate)
  }

  /** A record written out and read back is the same record, when its timestamp survives the trip. */
  lemma RehydrateDehydrate(t: Todo, toIso: Timestamp -> string, parseDate: string -> Timestamp)
    requires parseDate(toIso(t.createdAt)) == t.createdAt
    ensures Rehydrate(Dehydrate(t, toIso), parseDate) == t
  {
  }

  /**
   * Saving and loading again gives back the same list, provided reading a
   * timestamp back from its text gives the timestamp that was written.
   */
  lemma HydrateSnapshot(todos: seq<Todo>, toIso: Timestamp -> string, parseDate: string -> Timestamp)
    requires forall t :: t in todos ==> parseDate(toIso(t.createdAt)) == t.createdAt
    ensures Hydrate(Snapshot(todos, toIso), parseDate) == todos
  {
    var stored := Snapshot(todos, toIso);
    var r := Hydrate(stored, parseDate);
    forall i | 0 <= i < |todos| ensures r[i] == todos[i] {
      assert todos[i] in todos;
      assert stored[i] == Dehydrate(todos[i], toIso);
    }
  }

  // ---------------------------------------------------------------------------
  // The provider
  // ---------------------------------------------------------------------------

  /** The object that owns the list and applies the updates to it. */
  class TodoProvider {
    var todos: seq<Todo>

    /** A fresh provider starts with the empty list. */
    constructor ()
      ensures todos == []
      ensures UniqueIds(todos) && AllWellFormed(todos)
    {
      todos := [];
    }

    /** Appends the candidate with the generated `freshId` and creation time `now`. */
    method AddTodo(c: TodoInput, freshId: string, now: Timestamp)
      requires freshId !in Ids(todos)
      modifies this
      ensures todos == Added(old(todos), c, freshId, now)
      ensures Ids(todos) == Ids(old(todos)) + {freshId}
      ensures UniqueIds(old(todos)) ==> UniqueIds(todos)
    {
      AddedIds(todos, c, freshId, now);
      if UniqueIds(todos) {
        AddedKeepsUniqueIds(todos, c, freshId, now);
      }
      todos := Added(todos, c, freshId, now);
    }

    /** Filters out every record whose id is `id`. */
    method RemoveTodo(id: string)
      modifies this
      ensures todos == Removed(old(todos), id)
      ensures Ids(todos) == Ids(old(todos)) - {id}
      ensures UniqueIds(old(todos)) ==> UniqueIds(todos)
      ensures AllWellFormed(old(todos)) ==> AllWellFormed(todos)
    {
      RemovedIds(todos, id);
      if UniqueIds(todos) {
        RemovedKeepsUniqueIds(todos, id);
      }
      todos := Removed(todos, id);
    }

    /** The load step run when the provider mounts, given what storage holds, already parsed. */
    method Load(stored: Option<seq<StoredTodo>>, parseDate: string -> Timestamp)
      modifies this
      ensures todos == Loaded(old(todos), stored, parseDate)
    {
      if stored.Some? {
        todos := Hydrate(stored.value, parseDate);
      }
    }
  }

  /** The message `useTodo` throws when no provider is in scope. */
  const OutsideProviderMessage: string := "useTodo must be used within a TodoProvider"

  /** Access to the provider: an error when the caller is not inside one. */
  function UseTodo(context: Option<TodoProvider>): (r: Result<TodoProvider, string>)
    ensures r.Success? <==> context.Some?
    ensures r.Success? ==> r.value == context.value
    ensures r.Failure? ==> r.error == OutsideProviderMessage
  {
    match context
    case None => Failure(OutsideProviderMessage)
    case Some(p) => Success(p)
  }
}
