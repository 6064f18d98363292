/**
 * The todo list of the state tutorial: `addTodo` appends the typed text when
 * it is not blank and clears the input, `removeTodo(index)` keeps every item
 * whose position differs from `index`, and the list shows a placeholder when
 * it is empty. The clock the page also keeps is a timer and is not part of
 * this model.
 */
module StatePage {
  import opened Text

  /** `todos.filter((_, i) => i !== index)`: the items at every position other
      than `index`, in their order. An index outside the list removes nothing. */
  function RemoveAt(todos: seq<string>, index: int): (r: seq<string>)
    ensures 0 <= index < |todos| ==> r == todos[..index] + todos[index + 1..]
    ensures !(0 <= index < |todos|) ==> r == todos
  {
    if |todos| == 0 then []
    else (if index == 0 then [] else [todos[0]]) + RemoveAt(todos[1..], index - 1)
  }

  /** Removing an item in range shortens the list by one and shifts the later
      items down by one place. */
  lemma RemoveAtShifts(todos: seq<string>, index: int)
    requires 0 <= index < |todos|
    ensures |RemoveAt(todos, index)| == |todos| - 1
    ensures forall j :: 0 <= j < index ==> RemoveAt(todos, index)[j] == todos[j]
    ensures forall j :: index <= j < |todos| - 1 ==> RemoveAt(todos, index)[j] == todos[j + 1]
  {
    var r := RemoveAt(todos, index);
    assert r == todos[..index] + todos[index + 1..];
  }

  /** Removing the item just appended gives back the list before the append. */
  lemma AddThenRemoveRestores(todos: seq<string>, text: string)
    ensures RemoveAt(todos + [text], |todos|) == todos
  {
    assert (todos + [text])[..|todos|] == todos;
  }

  /** What the `<ul>` shows: the "no todos" item, or one item per entry. */
  datatype ListView = NoTodos | Items(items: seq<string>)

  function ListViewOf(todos: seq<string>): (v: ListView)
    ensures v.NoTodos? <==> |todos| == 0
    ensures v.Items? ==> v.items == todos
  {
    if |todos| == 0 then NoTodos else Items(todos)
  }

  class StateTutorial {
    var text: string
    var todos: seq<string>

    constructor ()
      ensures text == "" && todos == []
    {
      text := "";
      todos := [];
    }

    /** The input's `onChange`. */
    method SetText(value: string)
      modifies this
      ensures text == value && todos == old(todos)
    {
      text := value;
    }

    /** `addTodo`: text that is not only whitespace is appended as typed, not
        trimmed, and the input is cleared; blank text changes nothing. */
    method AddTodo()
      modifies this
      ensures !AllWhitespace(old(text)) ==> todos == old(todos) + [old(text)] && text == ""
      ensures AllWhitespace(old(text)) ==> todos == old(todos) && text == old(text)
    {
      if !IsBlank(text) {
        todos := todos + [text];
        text := "";
      }
    }

    /** `removeTodo(index)` */
    method RemoveTodo(index: int)
      modifies this
      ensures todos == RemoveAt(old(todos), index)
      ensures text == old(text)
    {
      todos := RemoveAt(todos, index);
    }

    /** The input's `onKeyDown`: Enter does what the add button does, any other
        key changes nothing. */
    method OnKeyDown(key: string)
      modifies this
      ensures key == "Enter" && !AllWhitespace(old(text)) ==> todos == old(todos) + [old(text)] && text == ""
      ensures key == "Enter" && AllWhitespace(old(text)) ==> todos == old(todos) && text == old(text)
      ensures key != "Enter" ==> todos == old(todos) && text == old(text)
    {
      if key == "Enter" {
        AddTodo();
      }
    }

    /** The list as rendered now. */
    function Shown(): (v: ListView)
      reads this
      ensures v.NoTodos? <==> |todos| == 0
      ensures v.Items? ==> v.items == todos
    {
      ListViewOf(todos)
    }
  }
}
