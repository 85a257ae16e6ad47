/**
 * The TodoApp component as a state machine: one field per piece of component
 * state, one method per event handler. Every remote call is an input: whether
 * it failed, and the row or rows it returned.
 */
module App {
  import opened Wrappers
  import opened Tasks
  import opened Text
  import opened Tabs
  import opened View

  class TodoApp {
    var todos: seq<Todo>
    var newTodo: string
    var newDate: string
    var newType: string
    var newImportance: string
    var activeTab: string
    var pin: string
    var unlocked: bool
    var showForm: bool
    /** Whether the list's scroll handler is registered (a DOM listener, not React state). */
    var listenerAttached: bool

    /**
     * The first render: locked, on the activity tab, empty cache and inputs,
     * form shown. The listener effect then runs on the locked screen, so the
     * handler is not registered.
     */
    constructor ()
      ensures todos == [] && newTodo == "" && newDate == "" && newType == "" && newImportance == ""
      ensures activeTab == InitialTab && pin == "" && !unlocked && showForm
      ensures listenerAttached == ListenerAttachedAsWritten(unlocked, activeTab) && !listenerAttached
    {
      todos, newTodo, newDate, newType, newImportance := [], "", "", "", "";
      activeTab, pin, unlocked, showForm := InitialTab, "", false, true;
      listenerAttached := ListenerAttachedAsWritten(false, InitialTab);
    }

    /**
     * Fetch the records of a tab (issued only once unlocked). The query carries the tab's type filter
     * (returned here); a successful answer replaces the cache wholesale, a
     * failed one leaves it as it was.
     */
    method FetchTodos(tab: string, failed: bool, rows: seq<Todo>) returns (filter: Option<string>)
      requires unlocked
      modifies this`todos
      ensures filter == TypeFilter(tab)
      ensures todos == if failed then old(todos) else rows
    {
      filter := TypeFilter(tab);
      if !failed {
        todos := rows;
      }
    }

    /**
     * The effect that runs when the gate or the active tab changes: once
     * unlocked, refetch the active tab and reveal the form. Returns the filter
     * of the query it issued, None when it issued none.
     */
    method Refresh(failed: bool, rows: seq<Todo>) returns (query: Option<Option<string>>)
      modifies this`todos, this`showForm
      ensures query.Some? <==> unlocked
      ensures query.Some? ==> query.value == TypeFilter(activeTab) && showForm
      ensures todos == if query.Some? && !failed then rows else old(todos)
      ensures query.None? ==> showForm == old(showForm)
    {
      query := None;
      if unlocked {
        var filter := FetchTodos(activeTab, failed, rows);
        showForm := true;
        query := Some(filter);
      }
    }

    /** The PIN field's change handler (the field is only on the locked screen). */
    method EnterPin(value: string)
      requires !unlocked
      modifies this`pin
      ensures pin == value
    {
      pin := value;
    }

    /**
     * The unlock button (only on the locked screen): the gate opens only for
     * the exact PIN, and opening it triggers the refresh effect. A wrong PIN
     * leaves everything as it was.
     */
    method Unlock(failed: bool, rows: seq<Todo>) returns (query: Option<Option<string>>)
      requires !unlocked
      modifies this`unlocked, this`todos, this`showForm
      ensures unlocked <==> pin == Pin
      ensures query.Some? <==> pin == Pin
      ensures query.Some? ==> query.value == TypeFilter(activeTab) && showForm
      ensures todos == if query.Some? && !failed then rows else old(todos)
      ensures query.None? ==> showForm == old(showForm)
    {
      query := None;
      if pin == Pin {
        unlocked := true;
        query := Refresh(failed, rows);
      }
    }

    /**
     * A tab button (or the home button, with ""), only on the unlocked screen:
     * set the active tab. A change of tab refetches and reveals the form;
     * picking the tab already active changes nothing else.
     */
    method SelectTab(tab: string, failed: bool, rows: seq<Todo>) returns (query: Option<Option<string>>)
      requires unlocked
      modifies this`activeTab, this`todos, this`showForm
      ensures activeTab == tab
      ensures query.Some? <==> tab != old(activeTab)
      ensures query.Some? ==> query.value == TypeFilter(tab) && showForm
      ensures todos == if query.Some? && !failed then rows else old(todos)
      ensures query.None? ==> showForm == old(showForm)
    {
      var changed := tab != activeTab;
      activeTab := tab;
      query := None;
      if changed {
        query := Refresh(failed, rows);
      }
    }

    /** The creation form's change handlers (the form is only on the unlocked screen). */
    method EditTask(value: string)
      requires unlocked
      modifies this`newTodo
      ensures newTodo == value
    {
      newTodo := value;
    }

    method EditDate(value: string)
      requires unlocked
      modifies this`newDate
      ensures newDate == value
    {
      newDate := value;
    }

    method EditType(value: string)
      requires unlocked
      modifies this`newType
      ensures newType == value
    {
      newType := value;
    }

    method EditImportance(value: string)
      requires unlocked
      modifies this`newImportance
      ensures newImportance == value
    {
      newImportance := value;
    }

    /**
     * Submit the creation form (only on the unlocked screen). Blank text submits nothing and changes
     * nothing. Otherwise the draft (done = false and the current inputs) is
     * submitted; a successful insert puts the stored row in front of the
     * cache, and the four inputs are cleared whether or not the insert failed.
     */
    method AddTodo(failed: bool, inserted: Todo) returns (submitted: Option<Draft>)
      requires unlocked
      modifies this`todos, this`newTodo, this`newDate, this`newType, this`newImportance
      ensures submitted.None? <==> IsBlank(old(newTodo))
      ensures submitted.None? ==>
        todos == old(todos) && newTodo == old(newTodo) && newDate == old(newDate)
        && newType == old(newType) && newImportance == old(newImportance)
      ensures submitted.Some? ==>
        submitted.value == Draft(old(newTodo), false, old(newDate), old(newType), old(newImportance))
        && todos == (if failed then old(todos) else [inserted] + old(todos))
        && newTodo == "" && newDate == "" && newType == "" && newImportance == ""
    {
      TrimEmptyIffBlank(newTodo);
      if Trim(newTodo) == [] {
        return None;
      }
      submitted := Some(Draft(newTodo, false, newDate, newType, newImportance));
      if !failed {
        todos := [inserted] + todos;
      }
      newTodo, newDate, newType, newImportance := "", "", "", "";
    }

    /**
     * A record's toggle button (records are listed only on the unlocked
     * screen), passing the record's id and its displayed `done`.
     */
    method ToggleTodo(id: int, done: bool, failed: bool)
      requires unlocked
      modifies this`todos
      ensures todos == if failed then old(todos) else Toggled(old(todos), id, done)
    {
      if !failed {
        todos := Toggled(todos, id, done);
      }
    }

    /** A record's delete button (only on the unlocked screen). */
    method DeleteTodo(id: int, failed: bool)
      requires unlocked
      modifies this`todos
      ensures todos == if failed then old(todos) else WithoutId(old(todos), id)
    {
      if !failed {
        todos := WithoutId(todos, id);
      }
    }

    /**
     * A scroll event of the list: it reaches the handler only if the handler
     * is registered, and the handler sets the flag by the scroll rule when the
     * list is in the DOM.
     */
    method OnScroll(scrollTop: int)
      modifies this`showForm
      ensures showForm == FormAfterScroll(listenerAttached, unlocked, activeTab, old(showForm), scrollTop)
    {
      if listenerAttached && ListMounted(unlocked, activeTab) {
        showForm := FormVisible(scrollTop);
      }
    }

    /**
     * Corrected registration: the listener effect keyed on the gate, run once
     * the list has mounted, registers the handler exactly while the list is
     * in the DOM.
     */
    method RegisterScrollHandler()
      modifies this`listenerAttached
      ensures listenerAttached == ListenerAttachedCorrected(unlocked, activeTab)
    {
      listenerAttached := ListenerAttachedCorrected(unlocked, activeTab);
    }
  }

  /** The gate: a wrong PIN keeps it shut; the right one opens it and loads the activity tab. */
  method GateSession(store: seq<Todo>)
  {
    var app := new TodoApp();
    app.EnterPin("1234");
    var q := app.Unlock(false, store);
    assert !app.unlocked && q.None? && app.todos == [];

    app.EnterPin("2548");
    q := app.Unlock(false, store);
    assert app.unlocked && q == Some(Some(ActivityType)) && app.todos == store;
  }

  /**
   * A task's life: added in front of the cache, completed (one task fewer
   * pending), deleted (the cache is back as it was).
   */
  method TaskSession(app: TodoApp, row: Todo)
    requires app.unlocked && !row.done && !HasId(app.todos, row.id)
    modifies app
  {
    var store := app.todos;
    app.EditTask("Buy milk");
    assert !IsBlank(app.newTodo) by { assert !IsSpace(app.newTodo[0]); }
    var draft := app.AddTodo(false, row);
    assert draft.Some? && draft.value.task == "Buy milk" && !draft.value.done;
    assert app.todos == [row] + store && app.newTodo == "";

    var before := Pending(app.todos);
    assert OnlyAt(app.todos, 0);
    PendingToggleDone(app.todos, 0);
    app.ToggleTodo(row.id, false, false);
    assert Pending(app.todos) == before - 1;

    var done := row.(done := true);
    ToggledAppend([row], store, row.id, false);
    ToggleAbsent(store, row.id, false);
    assert app.todos == [done] + store;
    app.DeleteTodo(row.id, false);
    DeleteUndoesPrepend(store, done);
    assert app.todos == store;
  }

  /**
   * A fetch answered faithfully by the store: after it the cache holds
   * exactly the store's records of the tab's category, or the whole store
   * for a tab without a filter.
   */
  method FetchFromStore(app: TodoApp, store: seq<Todo>, tab: string) returns (filter: Option<string>)
    requires app.unlocked
    modifies app`todos
    ensures filter == TypeFilter(tab)
    ensures IsCategoryTab(tab) ==>
      forall t :: t in app.todos <==> t in store && t.category == filter.value
    ensures !IsCategoryTab(tab) ==> app.todos == store
  {
    filter := app.FetchTodos(tab, false, Select(store, TypeFilter(tab)));
    SelectForTab(store, tab);
  }

  /**
   * Scrolling as written and as corrected: after unlocking, a scroll to 500
   * leaves the form shown because no handler is registered; once the handler
   * is registered as corrected, the same scroll hides the form and a scroll
   * back to the top shows it again.
   */
  method ScrollSession(store: seq<Todo>)
  {
    var app := new TodoApp();
    app.EnterPin("2548");
    var q := app.Unlock(false, store);
    assert app.unlocked && app.showForm;

    app.OnScroll(500);
    assert app.showForm;

    app.RegisterScrollHandler();
    app.OnScroll(500);
    assert !app.showForm;
    app.OnScroll(0);
    assert app.showForm;
  }
}
