/**
 * The standalone home page (src/pages/Home.jsx), which keeps a list of the
 * values its input adds. The page is not mounted by the application entry
 * point; it is modelled on its own.
 */
module Home {
  import opened Wrappers
  import opened Text
  import opened TaskInput

  /** `s.filter(y => y !== x)` with value equality. */
  function Without<T(==)>(s: seq<T>, x: T): (r: seq<T>)
    ensures x !in r
    ensures |r| <= |s|
  {
    if s == [] then []
    else (if s[0] == x then [] else [s[0]]) + Without(s[1..], x)
  }

  /** Every element other than `x` is kept as often as it occurred. */
  lemma {:induction false} WithoutCounts<T>(s: seq<T>, x: T)
    ensures multiset(Without(s, x)) == multiset(s)[x := 0]
  {
    if s != [] {
      assert s == [s[0]] + s[1..];
      WithoutCounts(s[1..], x);
    }
  }

  /** The kept elements stay in their order: removal distributes over concatenation. */
  lemma {:induction false} WithoutAppend<T>(a: seq<T>, b: seq<T>, x: T)
    ensures Without(a + b, x) == Without(a, x) + Without(b, x)
  {
    if a == [] {
      assert a + b == b;
    } else {
      assert (a + b)[1..] == a[1..] + b;
      WithoutAppend(a[1..], b, x);
    }
  }

  /** Removing an element that is not present leaves the list unchanged. */
  lemma {:induction false} WithoutAbsent<T>(s: seq<T>, x: T)
    requires x !in s
    ensures Without(s, x) == s
  {
    if s != [] {
      WithoutAbsent(s[1..], x);
      assert s == [s[0]] + s[1..];
    }
  }

  class HomeState<T(==)> {
    var tasks: seq<T>

    constructor ()
      ensures tasks == []
    {
      tasks := [];
    }

    /** The effect of the page's fetch: a list that arrives replaces the tasks (`None`: the request threw). */
    method Load(data: Option<seq<T>>)
      modifies this
      ensures tasks == if data.Some? then data.value else old(tasks)
    {
      if data.Some? {
        tasks := data.value;
      }
    }

    /** `addTask`: appends, keeping every earlier element in place. */
    method AddTask(newTask: T)
      modifies this
      ensures tasks == old(tasks) + [newTask]
      ensures |tasks| == |old(tasks)| + 1 && tasks[..|old(tasks)|] == old(tasks) && tasks[|old(tasks)|] == newTask
    {
      tasks := tasks + [newTask];
    }

    /** `deleteTask`: removes every element equal to the given one. */
    method DeleteTask(taskToDelete: T)
      modifies this
      ensures tasks == Without(old(tasks), taskToDelete)
    {
      tasks := Without(tasks, taskToDelete);
    }
  }

  /** Pressing Add in the input box of the page (`onAdd={addTask}`). */
  method AddFromInput(home: HomeState<string>, input: TaskInputState)
    modifies home, input
    ensures IsBlank(old(input.task)) ==> home.tasks == old(home.tasks) && input.task == old(input.task)
    ensures !IsBlank(old(input.task)) ==> home.tasks == old(home.tasks) + [old(input.task)] && input.task == ""
  {
    var added := input.HandleAdd();
    if added.Some? {
      home.AddTask(added.value);
    }
  }
}
