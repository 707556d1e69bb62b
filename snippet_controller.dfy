/** src/controllers/snippet_controller.py: the controller of the snippet form.
    It validates the form's dict, picks add or edit mode from the item it was
    opened on, calls the model, and asks the view to show messages, clear and
    close the form and fire the main window's callbacks. The view's side is
    recorded as a list of requests, in the order they are made; the two
    `after(0, ...)` callbacks of `submit_snippet` are run in the order they
    are scheduled. */
module SnippetController {
  import opened Common
  import opened Schema
  import opened Connection
  import opened SnippetModel

  /** Python truthiness of a form or database value. */
  predicate Truthy(v: SqlValue) {
    match v
    case Null => false
    case Int(i) => i != 0
    case Text(s) => |s| > 0
  }

  const RequiredFields: seq<string> := ["title", "language", "code"]

  /** `all(data.get(f) for f in fields)` */
  predicate AllGiven(data: SnippetData, fields: seq<string>) {
    |fields| == 0 || (Truthy(Lookup(data, fields[0]).GetOr(Null)) && AllGiven(data, fields[1..]))
  }

  /** `validate_snippet_data` (both the module function and the static method). */
  predicate ValidSnippetData(data: SnippetData) {
    AllGiven(data, RequiredFields)
  }

  /** Valid exactly when title, language and code are present and non-empty;
      the category is not looked at. */
  lemma ValidSnippetDataExactly(data: SnippetData)
    ensures ValidSnippetData(data) <==>
              Truthy(Lookup(data, "title").GetOr(Null))
              && Truthy(Lookup(data, "language").GetOr(Null))
              && Truthy(Lookup(data, "code").GetOr(Null))
  {
    var fs := RequiredFields;
    assert fs[1..] == ["language", "code"] && fs[1..][1..] == ["code"] && fs[1..][1..][1..] == [];
    assert AllGiven(data, fs[1..][1..]) == Truthy(Lookup(data, "code").GetOr(Null));
    assert AllGiven(data, fs[1..]) ==
             (Truthy(Lookup(data, "language").GetOr(Null)) && AllGiven(data, fs[1..][1..]));
  }

  /** A valid form never makes the model raise KeyError. */
  lemma ValidWritesHaveParams(data: SnippetData)
    requires ValidSnippetData(data)
    ensures WriteParams(data).Ok?
  {
    ValidSnippetDataExactly(data);
  }

  datatype Mode = Add | Edit

  /** What the controller asks of the view and of the main window. */
  datatype UiEvent =
    | ShowMessage(message: string, success: bool)   // `view.show_message(message, success)`
    | ClearForm
    | PopulateForm(snippet: Option<NamedRecord>)
    | Callback(name: string)                        // an application callback fired
    | CloseView
    | Raised(key: string)                           // a KeyError escapes the callback

  /** The keys of the main window's callback dict (application_controller.py). */
  const ApplicationCallbacks: seq<string> := [
    "new_snippet", "edit_snippet", "delete_snippet", "import_snippet", "export_snippet",
    "manage_languages", "manage_categories", "manage_theme", "manage_configuration",
    "open_user_guide", "open_faqs", "report_issue", "suggest_feature", "open_about",
    "close_db_connection", "add_snippet_to_treeview", "update_snippet_in_treeview",
    "delete_snippet_in_treeview", "on_tree_select", "get_language_specific_categories",
    "get_general_categories", "apply_theme"]

  /** The keys of the controller's own callback dict. */
  const ControllerCallbacks: seq<string> := ["submit_snippet"]

  const ValidationFailed := "Validation failed. Please check your input."
  const Saved := "Snippet saved successfully."
  const NotSaved := "Failed to save snippet."

  /** The callback `post_submission_cleanup` fires after a success. */
  function CleanupTarget(data: Option<SnippetData>): string {
    if data.Some? && |data.value| > 0 then
      if HasKey(data.value, "id") && Truthy(Lookup(data.value, "id").GetOr(Null)) then "update_snippet_in_treeview"
      else "add_snippet_to_treeview"
    else "refresh_display"
  }

  /** `post_submission_cleanup(message, success, data)`: the view's
      `show_message(message, success=True)` receives the title as its
      message and the message as its flag. */
  function Cleanup(message: string, success: bool, data: Option<SnippetData>, callbacks: seq<string>)
    : seq<UiEvent>
  {
    if success then
      var name := CleanupTarget(data);
      [ClearForm, ShowMessage("Success", |message| > 0)]
      + (if name in callbacks then [Callback(name), CloseView] else [Raised(name)])
    else [ShowMessage("Error", |message| > 0)]
  }

  /** After a success, exactly one of the three callbacks is looked up; the
      form closes only when the main window has it. After a failure only an
      error is shown. */
  lemma CleanupFiresOneCallback(message: string, success: bool, data: Option<SnippetData>, callbacks: seq<string>)
    ensures !success ==> Cleanup(message, success, data, callbacks) == [ShowMessage("Error", |message| > 0)]
    ensures success ==>
              var es := Cleanup(message, success, data, callbacks);
              && es[..2] == [ClearForm, ShowMessage("Success", |message| > 0)]
              && CleanupTarget(data) in {"update_snippet_in_treeview", "add_snippet_to_treeview", "refresh_display"}
              && (forall e :: e in es && (e.Callback? || e.Raised?) ==> e == Callback(CleanupTarget(data)) || e == Raised(CleanupTarget(data)))
              && (CloseView in es <==> CleanupTarget(data) in callbacks)
  {
  }

  /** The cleanup `submit_snippet` schedules passes no data, so a success
      looks up `refresh_display`, which the main window does not register:
      the KeyError escapes and the form stays open. */
  lemma SubmitCleanupRaises(message: string)
    ensures Cleanup(message, true, None, ApplicationCallbacks) ==
              [ClearForm, ShowMessage("Success", |message| > 0), Raised("refresh_display")]
  {
  }

  /** Handing the submitted form to the cleanup, as its `snippet_data`
      parameter intends, reaches a callback the main window registers: the
      form is cleared, the success shown, the add or update callback fired
      and the form closed, with nothing raised. */
  lemma IntendedCleanupCloses(message: string, data: SnippetData)
    requires |data| > 0
    ensures Cleanup(message, true, Some(data), ApplicationCallbacks) ==
              [ClearForm, ShowMessage("Success", |message| > 0), Callback(CleanupTarget(Some(data))), CloseView]
    ensures CleanupTarget(Some(data)) in {"update_snippet_in_treeview", "add_snippet_to_treeview"}
  {
  }

  /** What one synchronous `submit_snippet(data)` does: the truthiness the
      model's answer leaves in `self.success` (None: validation failed and
      the model was not called), the view requests, and the database after. */
  datatype Submission = Submission(saved: Option<bool>, events: seq<UiEvent>, db: Option<ConnState>)

  function SubmitState(db: Option<ConnState>, mode: Mode, selected: SqlValue, data: SnippetData,
                       writable: bool, callbacks: seq<string>): Submission
  {
    if !ValidSnippetData(data) then Submission(None, [ShowMessage(ValidationFailed, false)], db)
    else
      var (saved, db') := ModelCall(db, mode, selected, data, writable);
      var message := if saved then Saved else NotSaved;
      Submission(Some(saved), Cleanup(message, saved, None, callbacks) + [ShowMessage(message, saved)], db')
  }

  /** Add mode calls only `add_snippet(data)`, edit mode only
      `update_snippet(selected_item, data)`; `self.success` keeps the
      truthiness of the answer. */
  function ModelCall(db: Option<ConnState>, mode: Mode, selected: SqlValue, data: SnippetData, writable: bool)
    : (bool, Option<ConnState>)
  {
    match mode
    case Add =>
      var (r, db') := AddState(db, data, WrittenColumns, writable);
      (r.Ok? && r.value.Some? && r.value.value != 0, db')
    case Edit =>
      var (r, db') := UpdateState(db, selected, data, WrittenColumns, writable);
      (r == Ok(true), db')
  }

  /** An invalid form reaches no model method and leaves the database as it was. */
  lemma InvalidSubmissionTouchesNothing(db: Option<ConnState>, mode: Mode, selected: SqlValue, data: SnippetData,
                                        writable: bool, callbacks: seq<string>)
    requires !ValidSnippetData(data)
    ensures SubmitState(db, mode, selected, data, writable, callbacks) ==
              Submission(None, [ShowMessage(ValidationFailed, false)], db)
  {
  }

  /** As written, with the model's column lists, no submission is ever saved:
      a valid form gets "Failed to save snippet." in both modes and the
      database is unchanged. */
  lemma SubmitNeverSaves(db: Option<ConnState>, mode: Mode, selected: SqlValue, data: SnippetData,
                         writable: bool, callbacks: seq<string>)
    requires ValidSnippetData(data)
    ensures SubmitState(db, mode, selected, data, writable, callbacks) ==
              Submission(Some(false), [ShowMessage("Error", true), ShowMessage(NotSaved, false)], db)
  {
    AddSnippetNeverInserts(db, data, writable);
    UpdateSnippetNeverUpdates(db, selected, data, writable);
    ValidWritesHaveParams(data);
  }

  class SnippetController {
    const model: SnippetModel
    const selectedItem: SqlValue
    const mode: Mode
    /** `self.snippet`: the record the form was opened on. */
    const snippet: Option<NamedRecord>
    const applicationCallbacks: seq<string>
    const callbacks: seq<string>
    /** `self.success`, unset until a submission passes validation. */
    var success: Option<bool>
    var events: seq<UiEvent>

    constructor (model: SnippetModel, applicationCallbacks: seq<string>, selectedItem: SqlValue)
      ensures this.model == model && this.applicationCallbacks == applicationCallbacks
      ensures this.selectedItem == selectedItem
      ensures mode == Edit <==> Truthy(selectedItem)
      ensures snippet == NamedSnippet(model.Db(), selectedItem)
      ensures callbacks == ControllerCallbacks && success == None && events == []
    {
      this.model := model;
      this.selectedItem := selectedItem;
      var s := model.GetSnippet(selectedItem);
      snippet := s;
      mode := if Truthy(selectedItem) then Edit else Add;
      callbacks := ControllerCallbacks;
      this.applicationCallbacks := applicationCallbacks;
      success := None;
      events := [];
    }

    /** `set_view`: an edit form is filled with the snippet. */
    method SetView()
      modifies this
      ensures events == old(events) + (if mode == Edit then [PopulateForm(snippet)] else [])
      ensures success == old(success)
    {
      if mode == Edit {
        events := events + [PopulateForm(snippet)];
      }
    }

    /** `submit_snippet(data)`, run synchronously. */
    method SubmitSnippet(data: SnippetData)
      modifies this, if model.conn == null then {} else {model.conn, model.conn.file}
      ensures var sub := SubmitState(old(model.Db()), mode, selectedItem, data, model.Writable(), applicationCallbacks);
              && events == old(events) + sub.events
              && model.Db() == sub.db
              && success == (if sub.saved.Some? then sub.saved else old(success))
    {
      if !ValidSnippetData(data) {
        events := events + [ShowMessage(ValidationFailed, false)];
        return;
      }
      var saved := CallModel(data);
      success := Some(saved);
      var message := if saved then Saved else NotSaved;
      PostSubmissionCleanup(message, saved, None);
      events := events + [ShowMessage(message, saved)];
    }

    /** The model call of `submit_snippet` for the controller's mode. */
    method CallModel(data: SnippetData) returns (saved: bool)
      modifies if model.conn == null then {} else {model.conn, model.conn.file}
      ensures (saved, model.Db()) == ModelCall(old(model.Db()), mode, selectedItem, data, model.Writable())
    {
      if mode == Add {
        var r := model.AddSnippet(data);
        saved := r.Ok? && r.value.Some? && r.value.value != 0;
      } else {
        var r := model.UpdateSnippet(selectedItem, data);
        saved := r == Ok(true);
      }
    }

    /** `post_submission_cleanup(message, success, snippet_data)` */
    method PostSubmissionCleanup(message: string, ok: bool, data: Option<SnippetData>)
      modifies this
      ensures events == old(events) + Cleanup(message, ok, data, applicationCallbacks)
      ensures success == old(success)
    {
      if ok {
        events := events + [ClearForm, ShowMessage("Success", |message| > 0)];
        var name := CleanupTarget(data);
        if name !in applicationCallbacks {
          events := events + [Raised(name)];
          return;
        }
        events := events + [Callback(name), CloseView];
      } else {
        events := events + [ShowMessage("Error", |message| > 0)];
      }
    }

    /** `create_snippet(data)`: whatever the model does, the lookup of
        'add-snippet-treeview' in the controller's own callbacks fails and the
        KeyError is caught, so the answer is always False. */
    method CreateSnippet(data: SnippetData) returns (created: bool)
      requires callbacks == ControllerCallbacks
      modifies if model.conn == null then {} else {model.conn, model.conn.file}
      ensures !created
      ensures model.Db() == AddState(old(model.Db()), data, WrittenColumns, model.Writable()).1
    {
      var r := model.AddSnippet(data);
      if r.KeyError? {
        return false;
      }
      if "add-snippet-treeview" !in callbacks {
        return false;
      }
      created := true;
    }

    /** `update_snippet(data)`: True whenever the model call does not raise,
        whatever it answered; it raises only on a missing required key. */
    method UpdateSnippet(data: SnippetData) returns (updated: bool)
      modifies if model.conn == null then {} else {model.conn, model.conn.file}
      ensures updated <==> HasKey(data, "title") && HasKey(data, "language") && HasKey(data, "code")
      ensures model.Db() == UpdateState(old(model.Db()), selectedItem, data, WrittenColumns, model.Writable()).1
    {
      var r := model.UpdateSnippet(selectedItem, data);
      updated := !r.KeyError?;
    }
  }
}
