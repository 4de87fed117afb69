/**
 * The to-do list widget (todo-app/oopScript.js): an ordered list of records
 * that the TodoApp class changes in place, persists under one storage key
 * and renders as one list row per record.
 *
 * The pure functions below say what each operation does to the list; the
 * TodoApp class at the end holds the widget's state and mirrors the source's
 * statements, and its methods are proved to follow those functions.
 */
module TodoList {
  import opened Wrappers
  import opened JsStrings

  /** One to-do record, `{text, isCompleted, isEditing}`. */
  datatype Todo = Todo(text: string, isCompleted: bool, isEditing: bool)

  const NoTodosMessage: string := "No todos available. Add some!"

  /** No two records are in edit mode at once. */
  predicate AtMostOneEditing(todos: seq<Todo>) {
    forall i, j :: 0 <= i < j < |todos| && todos[i].isEditing ==> !todos[j].isEditing
  }

  // ---------------------------------------------------------------------------
  // What each operation does to the list

  /**
   * addTodo: the input is trimmed; a blank input leaves the list alone,
   * anything else is appended as a fresh record, with no duplicate check.
   */
  function Added(todos: seq<Todo>, input: string): (r: seq<Todo>)
    ensures Trim(input) == [] ==> r == todos
    ensures Trim(input) != [] ==>
      && |r| == |todos| + 1 && r[..|todos|] == todos
      && r[|todos|] == Todo(Trim(input), false, false)
  {
    var todoText := Trim(input);
    if todoText == [] then todos else todos + [Todo(todoText, false, false)]
  }

  /** deleteTodo: `splice(index, 1)` removes exactly record i and keeps the others in order. */
  function Deleted(todos: seq<Todo>, i: nat): (r: seq<Todo>)
    requires i < |todos|
    ensures |r| == |todos| - 1
    ensures forall k :: 0 <= k < i ==> r[k] == todos[k]
    ensures forall k :: i <= k < |r| ==> r[k] == todos[k + 1]
    ensures multiset(r) + multiset{todos[i]} == multiset(todos)
  {
    assert todos == todos[..i] + [todos[i]] + todos[i + 1..];
    todos[..i] + todos[i + 1..]
  }

  /** toggleTodo: flips the completion flag of record i and nothing else. */
  function Toggled(todos: seq<Todo>, i: nat): (r: seq<Todo>)
    requires i < |todos|
    ensures |r| == |todos|
    ensures r[i].isCompleted == !todos[i].isCompleted
    ensures r[i].text == todos[i].text && r[i].isEditing == todos[i].isEditing
    ensures forall k :: 0 <= k < |todos| && k != i ==> r[k] == todos[k]
  {
    todos[i := todos[i].(isCompleted := !todos[i].isCompleted)]
  }

  /** startEditingTodo: record i becomes the only record in edit mode; texts and completion flags are kept. */
  function EditStarted(todos: seq<Todo>, i: nat): (r: seq<Todo>)
    requires i < |todos|
    ensures |r| == |todos|
    ensures forall k :: 0 <= k < |r| ==>
      && r[k].text == todos[k].text
      && r[k].isCompleted == todos[k].isCompleted
      && (r[k].isEditing <==> k == i)
  {
    seq(|todos|, k requires 0 <= k < |todos| => todos[k].(isEditing := k == i))
  }

  /**
   * saveEditedTodo: a text that trims to empty changes nothing (record i stays
   * in edit mode); otherwise record i takes the trimmed text and leaves edit
   * mode, keeping its completion flag, and the other records are untouched.
   */
  function EditSaved(todos: seq<Todo>, i: nat, newText: string): (r: seq<Todo>)
    requires i < |todos|
    ensures Trim(newText) == [] ==> r == todos
    ensures Trim(newText) != [] ==>
      && |r| == |todos|
      && r[i] == Todo(Trim(newText), todos[i].isCompleted, false)
      && forall k :: 0 <= k < |todos| && k != i ==> r[k] == todos[k]
  {
    var trimmedText := Trim(newText);
    if trimmedText == [] then todos
    else todos[i := todos[i].(text := trimmedText, isEditing := false)]
  }

  /** cancelEditingTodo: record i leaves edit mode with its text kept; the other records are untouched. */
  function EditCancelled(todos: seq<Todo>, i: nat): (r: seq<Todo>)
    requires i < |todos|
    ensures |r| == |todos|
    ensures r[i] == Todo(todos[i].text, todos[i].isCompleted, false)
    ensures forall k :: 0 <= k < |todos| && k != i ==> r[k] == todos[k]
  {
    todos[i := todos[i].(isEditing := false)]
  }

  /** loadTodosFromLocalStorage: the stored list, or the empty list when nothing is stored. */
  function Loaded(stored: Option<seq<Todo>>): (r: seq<Todo>)
    ensures stored.None? ==> r == []
    ensures stored.Some? ==> r == stored.value
  {
    match stored
    case Some(todos) => todos
    case None => []
  }

  // ---------------------------------------------------------------------------
  // Properties relating the operations

  /** Toggling the same record twice restores the list. */
  lemma ToggleTwice(todos: seq<Todo>, i: nat)
    requires i < |todos|
    ensures Toggled(Toggled(todos, i), i) == todos
  {
  }

  /** Starting to edit j after i leaves only j in edit mode: the earlier edit is forgotten. */
  lemma EditStartedTwice(todos: seq<Todo>, i: nat, j: nat)
    requires i < |todos| && j < |todos|
    ensures EditStarted(EditStarted(todos, i), j) == EditStarted(todos, j)
  {
  }

  /** A blank save keeps a record that was being edited in edit mode. */
  lemma BlankSaveKeepsEditing(todos: seq<Todo>, i: nat, newText: string)
    requires i < |todos| && todos[i].isEditing && AllWhitespace(newText)
    ensures EditSaved(todos, i, newText)[i].isEditing
  {
  }

  /** No duplicate check: adding the same text twice appends two equal records. */
  lemma AddAllowsDuplicates(todos: seq<Todo>)
    ensures var once := Added(todos, "Buy milk");
      && once == todos + [Todo("Buy milk", false, false)]
      && Added(once, " Buy milk ") == once + [Todo("Buy milk", false, false)]
  {
    TrimUnpadded("Buy milk");
    var padded := " Buy milk ";
    assert LeadingWhitespace(padded) == 1;
    assert ContentEnd(padded) == 9;
    assert padded[1..9] == "Buy milk";
    assert Trim(padded) == "Buy milk";
  }

  /** Adding, toggling, saving and cancelling keep at most one record in edit mode. */
  lemma UpdatesKeepSingleEdit(todos: seq<Todo>, i: nat, text: string)
    requires AtMostOneEditing(todos) && i < |todos|
    ensures AtMostOneEditing(Added(todos, text))
    ensures AtMostOneEditing(Toggled(todos, i))
    ensures AtMostOneEditing(EditSaved(todos, i, text))
    ensures AtMostOneEditing(EditCancelled(todos, i))
  {
  }

  /** Deleting a record keeps at most one record in edit mode. */
  lemma DeleteKeepsSingleEdit(todos: seq<Todo>, i: nat)
    requires AtMostOneEditing(todos) && i < |todos|
    ensures AtMostOneEditing(Deleted(todos, i))
  {
    var d := Deleted(todos, i);
    forall a, b | 0 <= a < b < |d| && d[a].isEditing
      ensures !d[b].isEditing
    {
      var a', b' := if a < i then a else a + 1, if b < i then b else b + 1;
      assert d[a] == todos[a'] && d[b] == todos[b'];
    }
  }

  /** Starting an edit always yields exactly one record in edit mode, whatever the list held before. */
  lemma EditStartedSingle(todos: seq<Todo>, i: nat)
    requires i < |todos|
    ensures AtMostOneEditing(EditStarted(todos, i))
    ensures EditStarted(todos, i)[i].isEditing
  {
  }

  // ---------------------------------------------------------------------------
  // The render plan: what renderTodos puts in the list element

  /** A button, by its class name and its text. */
  datatype Button = Button(className: string, caption: string)

  /** One `<li>` of the list. */
  datatype Item =
    | Placeholder(message: string)
    | EditingRow(index: nat, inputValue: string, buttons: seq<Button>)
    | DisplayRow(index: nat, text: string, completed: bool, buttons: seq<Button>)

  const SaveButton := Button("save-button", "Save")
  const CancelButton := Button("cancel-button", "Cancel")
  const EditButton := Button("edit-todo", "Edit")
  const DeleteButton := Button("delete-todo", "Delete")

  function ToggleButton(completed: bool): Button {
    Button("toggle-todo", if completed then "Undo" else "Complete")
  }

  /**
   * The row for record `todo` at position `index`: in edit mode an input
   * holding the text with Save and Cancel; otherwise the text (styled as
   * completed when it is) with toggle, Edit and Delete.
   */
  function RenderItem(todo: Todo, index: nat): Item {
    if todo.isEditing then
      EditingRow(index, todo.text, [SaveButton, CancelButton])
    else
      DisplayRow(index, todo.text, todo.isCompleted, [ToggleButton(todo.isCompleted), EditButton, DeleteButton])
  }

  /**
   * The whole list: a single placeholder when there are no records, otherwise
   * one row per record, in order, each wired to its own index.
   */
  function RenderPlan(todos: seq<Todo>): (plan: seq<Item>)
    ensures |todos| == 0 ==> plan == [Placeholder(NoTodosMessage)]
    ensures |todos| > 0 ==> |plan| == |todos| && forall k :: 0 <= k < |plan| ==> !plan[k].Placeholder?
    ensures |todos| > 0 ==> forall k :: 0 <= k < |todos| ==>
      && plan[k] == RenderItem(todos[k], k)
      && plan[k].index == k
      && (plan[k].EditingRow? <==> todos[k].isEditing)
  {
    if |todos| == 0 then [Placeholder(NoTodosMessage)]
    else seq(|todos|, k requires 0 <= k < |todos| => RenderItem(todos[k], k))
  }

  /**
   * What each row offers: an edit-mode row an input with the record's text
   * plus Save and Cancel; any other row the text, the completed styling, and
   * toggle / Edit / Delete, the toggle reading "Undo" exactly when the record
   * is completed.
   */
  lemma RenderRows(todos: seq<Todo>, k: nat)
    requires k < |todos|
    ensures var row := RenderPlan(todos)[k];
      && (todos[k].isEditing ==> row == EditingRow(k, todos[k].text, [SaveButton, CancelButton]))
      && (!todos[k].isEditing ==>
           && row.DisplayRow? && row.text == todos[k].text && row.completed == todos[k].isCompleted
           && |row.buttons| == 3 && row.buttons[1] == EditButton && row.buttons[2] == DeleteButton
           && (row.buttons[0].caption == "Undo" <==> todos[k].isCompleted))
  {
  }

  /**
   * renderTodos as written: after clearing the list it calls
   * `this.createElement`, which TodoApp does not define, so for any
   * non-empty list it throws a TypeError and leaves the list element empty.
   */
  datatype RenderOutcome = Rendered(items: seq<Item>) | Threw(error: string, items: seq<Item>)

  function RenderAsWritten(todos: seq<Todo>): (o: RenderOutcome)
    ensures |todos| == 0 ==> o == Rendered(RenderPlan(todos))
    ensures |todos| > 0 ==> o.Threw? && o.items == []
  {
    if |todos| == 0 then Rendered([Placeholder(NoTodosMessage)])
    else Threw("TypeError: this.createElement is not a function", [])
  }

  /** The as-written render shows no row for a list that has records, where the intended plan shows one per record. */
  lemma RenderAsWrittenLosesRows(todos: seq<Todo>)
    requires |todos| > 0
    ensures RenderAsWritten(todos).items == []
    ensures |RenderPlan(todos)| == |todos| && RenderAsWritten(todos).items != RenderPlan(todos)
  {
  }

  // ---------------------------------------------------------------------------
  // The widget

  /**
   * The TodoApp object: its record list, the text field's value, the list
   * element's contents and the "todos" entry of local storage (a JSON
   * round trip of the list, so the stored value is the list itself).
   */
  class TodoApp {
    var todos: seq<Todo>
    var inputValue: string
    var list: seq<Item>
    var stored: Option<seq<Todo>>

    /** The list element shows the current records. */
    predicate Valid()
      reads this
    {
      list == RenderPlan(todos)
    }

    /** `new TodoApp()` on a page whose storage holds `storage` and whose text field holds `input`: load, then render. */
    constructor (storage: Option<seq<Todo>>, input: string)
      ensures Valid()
      ensures todos == Loaded(storage) && stored == storage && inputValue == input
    {
      todos := [];
      inputValue := input;
      list := [];
      stored := storage;
      new;
      LoadTodosFromLocalStorage();
      RenderTodos();
    }

    method SaveTodosToLocalStorage()
      modifies this`stored
      ensures stored == Some(todos)
    {
      stored := Some(todos);
    }

    method LoadTodosFromLocalStorage()
      modifies this`todos
      ensures todos == Loaded(stored)
    {
      if stored.Some? {
        todos := stored.value;
      } else {
        todos := [];
      }
    }

    /** Clears the list element and appends the placeholder or one row per record. */
    method RenderTodos()
      modifies this`list
      ensures Valid()
    {
      list := [];
      if |todos| == 0 {
        list := list + [Placeholder(NoTodosMessage)];
        return;
      }
      var index := 0;
      while index < |todos|
        invariant index <= |todos|
        invariant |list| == index
        invariant forall k :: 0 <= k < index ==> list[k] == RenderItem(todos[k], k)
      {
        list := list + [RenderItem(todos[index], index)];
        index := index + 1;
      }
    }

    method AddTodo()
      requires Valid()
      modifies this
      ensures Valid()
      ensures todos == Added(old(todos), old(inputValue))
      ensures Trim(old(inputValue)) == [] ==> inputValue == old(inputValue) && stored == old(stored)
      ensures Trim(old(inputValue)) != [] ==> inputValue == [] && stored == Some(todos)
    {
      var todoText := Trim(inputValue);
      if todoText == [] {
        return;
      }
      todos := todos + [Todo(todoText, false, false)];
      inputValue := [];
      SaveTodosToLocalStorage();
      RenderTodos();
    }

    method DeleteTodo(index: nat)
      requires index < |todos|
      modifies this
      ensures Valid()
      ensures todos == Deleted(old(todos), index) && stored == Some(todos)
      ensures inputValue == old(inputValue)
    {
      todos := todos[..index] + todos[index + 1..];
      SaveTodosToLocalStorage();
      RenderTodos();
    }

    method ToggleTodo(index: nat)
      requires index < |todos|
      modifies this
      ensures Valid()
      ensures todos == Toggled(old(todos), index) && stored == Some(todos)
      ensures inputValue == old(inputValue)
    {
      todos := todos[index := todos[index].(isCompleted := !todos[index].isCompleted)];
      SaveTodosToLocalStorage();
      RenderTodos();
    }

    /** Resets every record's edit flag (the forEach), then sets the target's; nothing is persisted. */
    method StartEditingTodo(index: nat)
      requires index < |todos|
      modifies this
      ensures Valid()
      ensures todos == EditStarted(old(todos), index)
      ensures stored == old(stored) && inputValue == old(inputValue)
    {
      var k := 0;
      while k < |todos|
        invariant k <= |todos| == |old(todos)|
        invariant forall m :: 0 <= m < k ==> todos[m] == old(todos)[m].(isEditing := false)
        invariant forall m :: k <= m < |todos| ==> todos[m] == old(todos)[m]
        invariant stored == old(stored) && inputValue == old(inputValue)
      {
        todos := todos[k := todos[k].(isEditing := false)];
        k := k + 1;
      }
      todos := todos[index := todos[index].(isEditing := true)];
      RenderTodos();
    }

    method SaveEditedTodo(index: nat, newText: string)
      requires Valid() && index < |todos|
      modifies this
      ensures Valid()
      ensures todos == EditSaved(old(todos), index, newText)
      ensures Trim(newText) == [] ==> stored == old(stored)
      ensures Trim(newText) != [] ==> stored == Some(todos)
      ensures inputValue == old(inputValue)
    {
      var trimmedText := Trim(newText);
      if trimmedText == [] {
        return;
      }
      todos := todos[index := todos[index].(text := trimmedText)];
      todos := todos[index := todos[index].(isEditing := false)];
      SaveTodosToLocalStorage();
      RenderTodos();
    }

    /** Leaves edit mode without saving: nothing is persisted. */
    method CancelEditingTodo(index: nat)
      requires index < |todos|
      modifies this
      ensures Valid()
      ensures todos == EditCancelled(old(todos), index)
      ensures stored == old(stored) && inputValue == old(inputValue)
    {
      todos := todos[index := todos[index].(isEditing := false)];
      RenderTodos();
    }
  }

  /** Add "A", add "B", delete the first record, then reload the page: the list is restored as just "B". */
  method ReloadAfterEdits()
  {
    var a, b := Todo("A", false, false), Todo("B", false, false);
    TrimUnpadded("A");
    TrimUnpadded("B");
    var app := new TodoApp(None, "A");
    app.AddTodo();
    assert app.todos == [a];
    app.inputValue := "B";
    app.AddTodo();
    assert app.todos == [a, b];
    app.DeleteTodo(0);
    assert app.todos == [b] && app.stored == Some([b]);
    var reloaded := new TodoApp(app.stored, "");
    assert reloaded.todos == [b];
    assert reloaded.list[0] == RenderItem(b, 0);
  }
}
