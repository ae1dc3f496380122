/**
 * The todo records of the service (api/SlowPoke.API/Program.cs): the `Todo`
 * record with its default field values, the seeded list and the
 * `FirstOrDefault` lookup by id that the get-by-id handler runs.
 */
module Todos {

  import opened Wrappers
  import opened Time

  /** C#'s `int`: the type of `Todo.Id` and of the `{id}` route parameter. */
  newtype Int32 = x: int | -0x8000_0000 <= x < 0x8000_0000

  /**
   * `record Todo(int Id, string? Title, DateOnly? DueBy = null, bool IsComplete = false)`:
   * a todo built without the two optional fields has no due date and is open.
   */
  datatype Todo = Todo(id: Int32, title: Option<string>, dueBy: Option<DateOnly> := None, isComplete: bool := false)

  /** The values a `Todo` gets for the fields its constructor call leaves out. */
  lemma TodoDefaults(id: Int32, title: Option<string>)
    ensures Todo(id, title).dueBy == None
    ensures !Todo(id, title).isComplete
    ensures Todo(id, title) == Todo(id, title, None, false)
  {
  }

  /**
   * The seeded list, built once at start-up. Each of the three due dates comes
   * from its own read of the local clock (`DateTime.Now`), moved on by
   * `DateTime.AddDays` and then cut to its date by `DateOnly.FromDateTime`;
   * the three readings are parameters.
   */
  function SampleTodos(now2: DateTime, now3: DateTime, now5: DateTime): (r: seq<Todo>)
    ensures |r| == 5
    ensures forall i :: 0 <= i < |r| ==> r[i].id as int == i + 1 && !r[i].isComplete && r[i].title.Some?
    ensures r[0] == Todo(1, Some("Walk the dog"), None, false)
    ensures r[1].dueBy == Some(FromDateTime(now2))
    ensures r[2].dueBy == Some(DateOnly(FromDateTime(now3).dayNumber + 1))
    ensures r[3].dueBy == None
    ensures r[4].dueBy == Some(DateOnly(FromDateTime(now5).dayNumber + 2))
  {
    DateOfDaysLater(now3, 1);
    DateOfDaysLater(now5, 2);
    [ Todo(1, Some("Walk the dog")),
      Todo(2, Some("Do the dishes"), Some(FromDateTime(now2))),
      Todo(3, Some("Do the laundry"), Some(FromDateTime(AddDays(now3, 1)))),
      Todo(4, Some("Clean the bathroom")),
      Todo(5, Some("Clean the car"), Some(FromDateTime(AddDays(now5, 2)))) ]
  }

  /** No two entries of `todos` share an id. */
  predicate DistinctIds(todos: seq<Todo>) {
    forall i, j :: 0 <= i < j < |todos| ==> todos[i].id != todos[j].id
  }

  /** `todos[k]` is the first entry, in list order, whose id is `id`. */
  predicate IsFirstMatch(todos: seq<Todo>, id: Int32, k: int) {
    0 <= k < |todos| && todos[k].id == id && forall j :: 0 <= j < k ==> todos[j].id != id
  }

  /**
   * `todos.FirstOrDefault(a => a.Id == id)`: the first entry with that id, or
   * `null` (`None`) when there is none. It never fails.
   */
  function FirstOrDefault(todos: seq<Todo>, id: Int32): (r: Option<Todo>)
    ensures r.None? <==> forall i :: 0 <= i < |todos| ==> todos[i].id != id
    ensures r.Some? ==> exists k :: IsFirstMatch(todos, id, k) && todos[k] == r.value
    decreases |todos|
  {
    if todos == [] then None
    else if todos[0].id == id then
      assert IsFirstMatch(todos, id, 0);
      Some(todos[0])
    else
      var rest := FirstOrDefault(todos[1..], id);
      if rest.Some? then
        var k :| IsFirstMatch(todos[1..], id, k) && todos[1..][k] == rest.value;
        assert IsFirstMatch(todos, id, k + 1);
        rest
      else
        assert forall i :: 1 <= i < |todos| ==> todos[1..][i - 1] == todos[i];
        rest
  }

  /**
   * When ids repeat, the lookup returns the lowest-index match: whatever entry
   * is the first match is exactly what `FirstOrDefault` finds.
   */
  lemma {:induction false} FirstOrDefaultFindsFirstMatch(todos: seq<Todo>, id: Int32, k: int)
    requires IsFirstMatch(todos, id, k)
    ensures FirstOrDefault(todos, id) == Some(todos[k])
    decreases k
  {
    if k > 0 {
      assert IsFirstMatch(todos[1..], id, k - 1);
      FirstOrDefaultFindsFirstMatch(todos[1..], id, k - 1);
    }
  }

  /** With distinct ids, looking up the id of any entry finds that entry. */
  lemma DistinctIdsLookup(todos: seq<Todo>, k: int)
    requires DistinctIds(todos)
    requires 0 <= k < |todos|
    ensures FirstOrDefault(todos, todos[k].id) == Some(todos[k])
  {
    assert IsFirstMatch(todos, todos[k].id, k);
    FirstOrDefaultFindsFirstMatch(todos, todos[k].id, k);
  }

  /**
   * The seed has ids 1 to 5, all distinct, so each seeded id finds its own
   * entry and every other id finds none.
   */
  lemma SampleTodosLookup(now2: DateTime, now3: DateTime, now5: DateTime, id: Int32)
    ensures DistinctIds(SampleTodos(now2, now3, now5))
    ensures 1 <= id <= 5 ==> FirstOrDefault(SampleTodos(now2, now3, now5), id) == Some(SampleTodos(now2, now3, now5)[id - 1])
    ensures !(1 <= id <= 5) ==> FirstOrDefault(SampleTodos(now2, now3, now5), id) == None
  {
    var todos := SampleTodos(now2, now3, now5);
    if 1 <= id <= 5 {
      DistinctIdsLookup(todos, (id - 1) as int);
    }
  }
}
