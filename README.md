# PK Todo: the TodoApp state machine

`TodoApp` is a single React component: a personal task list kept in a remote
"todos" table. Behind a fixed-PIN gate it holds a cache of task records for the
active tab (a category of tasks). Its handlers create, toggle and delete
records, and each one updates the cache only after the remote call succeeds.
The code means the list's scroll offset to show and hide the creation form,
but as written the scroll handler is never registered (see "## Findings").

This project models that logic in Dafny:

- `Tasks` (tasks.dfy) has the task record and the pure list transforms the
  handlers apply: the toggle map, the delete filter, the pending count and the
  overdue test. It also has the lemmas about them: order, exact effect,
  round trips and id uniqueness.
- `Text` (text.dfy) has JavaScript's `trim`, used to decide whether the typed
  task is blank. Trimming strips the WhiteSpace and LineTerminator characters
  of ECMA-262.
- `Tabs` (tabs.dfy) maps each tab to the `type` filter of its fetch. It also
  has a reference model of the rows such a query selects.
- `View` (view.dfy) has the PIN gate, the scroll rule for the form, and the
  registration of the scroll handler, both as written and corrected (see
  Findings).
- `App` (app.dfy) has class `TodoApp`. It has one field per `useState`, plus
  `listenerAttached`, which records whether the scroll handler is registered.
  It has one method per handler or effect. Each remote call is an input: a
  failure flag plus the row or rows it returned.
- Handlers that appear only on one screen require the gate state of that
  screen. The form, the tab bar and the record buttons require `unlocked`;
  the PIN field and the unlock button require it to be false. The fetch
  itself (`TodoApp.FetchTodos`) requires `unlocked`, as its only caller is the
  effect's `if (unlocked)` branch. So no insert, update, delete or fetch can be
  issued while the gate is locked.
- `TodoApp.OnScroll` follows the code as written. The constructor leaves
  `listenerAttached` false and no handler sets it, so scrolling never changes
  the form flag. `TodoApp.RegisterScrollHandler` is the corrected
  registration. It is a separate method that the handlers do not call.

The store's `type` column is called `category` here, because `type` is a Dafny
keyword.

Details of the code that the model keeps as they are:

- Toggle writes `!done` using the `done` value passed to the handler, not the
  record's own flag (`Tasks.Toggled`).
- A tab change refetches only when the app is unlocked and the tab actually
  changed. Clicking the active tab again does not re-run the effect
  (`App.TodoApp.SelectTab`).
- The home button sets the tab to `""`, and `""` gets no filter. No handler
  ever sets the tab to `"home"`.

## Model

| member | source | states |
|---|---|---|
| `Tasks.Toggled` | src/App.jsx:83 | same length, same ids in the same order; records without the id are unchanged; each record with the id becomes that record with `done` set to the negation of the value passed |
| `Tasks.ToggleTwice` | src/App.jsx:83 | if every record with the id has `done` equal to the value passed, toggling with that value and then with its negation gives back the original list |
| `Tasks.ToggleAbsent` | src/App.jsx:83 | toggling an id that no record carries changes nothing |
| `Tasks.ToggledAppend` | src/App.jsx:83 | the toggle map distributes over concatenation (it is pointwise) |
| `Tasks.ToggleKeepsUniqueIds` | src/App.jsx:83 | toggling keeps ids unique |
| `Tasks.WithoutId` | src/App.jsx:88 | a record is in the result iff it is in the list and does not carry the id; the result is no longer than the list |
| `Tasks.WithoutIdAppend` | src/App.jsx:88 | the delete filter distributes over concatenation, so the survivors keep their relative order |
| `Tasks.WithoutIdAbsent` | src/App.jsx:88 | deleting an id that no record carries changes nothing |
| `Tasks.WithoutIdAt` | src/App.jsx:86-89 | when the record at position k is the only one with its id, deleting that id yields exactly the list without position k |
| `Tasks.WithoutIdKeepsUniqueIds` | src/App.jsx:88 | deleting keeps ids unique |
| `Tasks.DeleteUndoesPrepend` | src/App.jsx:74-88 | if a record's id is new to the list, prepending it (as a successful add does) and then deleting its id restores the list |
| `Tasks.Undone` | src/App.jsx:91 | a record is in the result iff it is in the list and not done |
| `Tasks.Pending` | src/App.jsx:91 | the pending count is at most the list length, and it is zero iff every record is done |
| `Tasks.PendingAppend` | src/App.jsx:91 | the pending count of a concatenation is the sum of the counts |
| `Tasks.PendingToggleDone` | src/App.jsx:83-91 | toggling a not-done record whose id no other record carries, passing `false`, lowers the pending count by exactly one |
| `Tasks.IsOverdue` | src/App.jsx:169 | defines overdue as not done, with a due time, and that due time strictly before `now`; its contract says an overdue record is not done and has a due time, and a record due at or after `now` is not overdue |
| `Tasks.DoneNeverOverdue` | src/App.jsx:169 | a done record is never overdue, whatever its due time |
| `Tasks.OverdueStays` | src/App.jsx:169 | a record overdue at one time is overdue at every later time |
| `Tasks.ToggledDoneNotOverdue` | src/App.jsx:169 | after toggling an id with `false`, no record carrying that id is overdue |
| `Text.IsSpace` | src/App.jsx:67 | defines the characters `trim` strips (ECMA-262 WhiteSpace and LineTerminator); space, tab, newline and carriage return are white space; ASCII letters and digits are not |
| `Text.IsBlank` | src/App.jsx:67 | defines blank text as all white space; the empty text is blank, and a non-empty blank text starts and ends with white space |
| `Text.TrimStart` | src/App.jsx:67 | the result is a suffix of the input, everything dropped is white space, and the result does not start with white space |
| `Text.TrimEnd` | src/App.jsx:67 | the result is a prefix of the input, everything dropped is white space, and the result does not end with white space |
| `Text.Trim` | src/App.jsx:67 | the result is a slice of the input with only white space before and after it |
| `Text.TrimEndsNotSpace` | src/App.jsx:67 | the trimmed text neither starts nor ends with white space (with the slice property of `Text.Trim`, this determines the result) |
| `Text.TrimEmptyIffBlank` | src/App.jsx:67 | the trimmed text is empty iff every character is white space |
| `Tabs.TypeFilter` | src/App.jsx:53-59 | a tab gets a type filter iff it is one of the four category tabs, and the filter is one of the four categories |
| `Tabs.TabOf` | src/App.jsx:56-59 | maps each category back to a category tab |
| `Tabs.TabCategoryRoundTrip` | src/App.jsx:56-59 | the tab-to-category map and `TabOf` are inverses of each other on the four tabs and four categories |
| `Tabs.HomeIsUnfiltered` | src/App.jsx:132 | the home button's `""` gets no filter, and the initial tab `activity` filters on `กิจกรรม` |
| `Tabs.Select` | src/App.jsx:54-61 | a row is in the answer to a query iff it is in the store and passes the query's filter |
| `Tabs.SelectForTab` | src/App.jsx:54-61 | a correct answer for a category tab holds exactly the store's records of that category; for any other tab it is the whole store |
| `View.FormVisible` | src/App.jsx:43 | defines the scroll rule `scrollTop < 30`: the form is shown at the top and hidden from 30 on |
| `View.ListMounted` | src/App.jsx:146-155 | defines when the list element (the handler's `listRef`) is in the DOM: never while locked, always when unlocked outside the `"home"` arm |
| `View.ListenerAttachedAsWritten` | src/App.jsx:47-51 | whether the `[]`-dependency effect registers the handler, decided by the first render only: never if that render is locked |
| `View.ListenerAttachedCorrected` | src/App.jsx:47-51 | corrected registration keyed on the gate: the handler is registered whenever the list is mounted |
| `View.ScrollNeverReachesHandler` | src/App.jsx:39-51 | a session's first render is locked, so as written the handler is never registered and no scroll changes the flag; scrolling to 500 still leaves the form shown |
| `View.ScrollDrivesForm` | src/App.jsx:43 | with the corrected registration, on the unlocked list scrolling to 30 or beyond hides the form, and scrolling back below 30 shows it again (no hysteresis) |
| `App.TodoApp.constructor` | src/App.jsx:20-51 | initial state: empty cache and inputs, tab `activity`, empty PIN, locked, form shown; the listener effect runs on this locked render, so no scroll handler is registered |
| `App.TodoApp.FetchTodos` | src/App.jsx:53-63 | issued only once unlocked; the query uses the tab's type filter; on success the cache becomes the returned rows, on failure it is unchanged |
| `App.TodoApp.Refresh` | src/App.jsx:31-37 | when unlocked, fetches the active tab and shows the form; when locked, issues no query and changes nothing |
| `App.TodoApp.EnterPin` | src/App.jsx:108 | on the locked screen, the PIN field takes the typed value |
| `App.TodoApp.Unlock` | src/App.jsx:112-116 | on the locked screen: afterwards unlocked iff the PIN is exactly `2548`; a fetch of the active tab is issued, and the form shown, exactly then; otherwise cache and form flag are unchanged |
| `App.TodoApp.SelectTab` | src/App.jsx:273-296 | on the unlocked screen, the active tab becomes the one clicked; a fetch with that tab's filter, and showing the form, happen iff the tab changed; otherwise cache and form flag are unchanged |
| `App.TodoApp.EditTask` | src/App.jsx:230 | on the unlocked screen, the task input takes the typed value |
| `App.TodoApp.EditDate` | src/App.jsx:236 | on the unlocked screen, the date input takes the picked value |
| `App.TodoApp.EditType` | src/App.jsx:242 | on the unlocked screen, the type select takes the picked value |
| `App.TodoApp.EditImportance` | src/App.jsx:254 | on the unlocked screen, the importance select takes the picked value |
| `App.TodoApp.AddTodo` | src/App.jsx:65-79 | only on the unlocked screen; nothing is submitted iff the text is blank, and then nothing changes; otherwise it submits the text with `done = false` and the current date, type and importance; the cache becomes inserted row + old cache on success and stays the same on failure; the four inputs are cleared in both cases |
| `App.TodoApp.ToggleTodo` | src/App.jsx:81-84 | only on the unlocked screen; on success the cache becomes its toggle map for the id and value passed; on failure it is unchanged |
| `App.TodoApp.DeleteTodo` | src/App.jsx:86-89 | only on the unlocked screen; on success the cache becomes its delete filter for the id; on failure it is unchanged |
| `App.TodoApp.OnScroll` | src/App.jsx:40-44 | if the handler is registered and the list is mounted, the form flag becomes `scrollTop < 30`, otherwise it is kept (`View.FormAfterScroll`); as written the handler is never registered, so the form flag is kept |
| `App.TodoApp.RegisterScrollHandler` | src/App.jsx:47-50 | corrected registration: the handler is registered iff the list is mounted |
| `App.FetchFromStore` | src/App.jsx:53-62 | once unlocked, when the store answers the tab's query faithfully, the cache afterwards holds exactly the store's records of that tab's category, or the whole store for a tab without a filter |

## Left out

- The Supabase client, its URL and key, and the network are left out. Each
  remote call is an input: a failure flag plus the returned rows, or the
  inserted row that the code reads as `data[0]`.
- Ordering by descending id is left out: it is done by the store.
  `Tabs.Select` keeps the store's order.
- The store's guarantees about ids are left out, and the members that need
  them take them as requires clauses. `Tasks.DeleteUndoesPrepend` and
  `App.TaskSession` assume the id of an inserted row is fresh, that is, new to
  the cache. `Tasks.PendingToggleDone` and `Tasks.WithoutIdAt` assume the id
  they act on is unique, carried by one record only (`Tasks.OnlyAt`).
- Async interleaving is left out. Each handler is one sequential step. The
  handlers' closures capture `todos` when the call is made, which can lose
  updates when calls overlap, and that race is not modelled.
- Date parsing and the clock are left out. `due_at` is `Option<int>`, where
  None stands for a missing, empty or unparseable date, and the current time
  is a parameter. The submitted draft keeps the raw input string.
- The scroll offset is an integer. The DOM reports a fractional one.
- `scrollTo(0, 0)`, `alert("Incorrect PIN")`, `preventDefault` and removing
  the listener are left out: they are DOM effects with no state in the model.
- Rendering, animation and icons are left out. So are the display names
  (`tabNameMap`) and the mapping from importance to border colour, because
  they are presentational.
- The `activeTab === "home"` screen is left out, because no handler can
  reach it. It appears only as a condition in `View.ListMounted`.

## Findings

| source | as written | input that shows it | evidently intended | confidence | as-written member | corrected member |
|---|---|---|---|---|---|---|
| src/App.jsx:39-51 | The effect that registers the scroll handler has an empty dependency list, so it runs once after the first render. The first render is always the locked PIN screen, so `listRef.current` is null and no handler is ever registered. | Enter PIN 2548, unlock, then scroll the list to 500: the form stays shown. | Scrolling the list to 30 or beyond hides the creation form, and scrolling back to the top shows it. | high; not executed | `View.ScrollNeverReachesHandler` | `View.ScrollDrivesForm` |
