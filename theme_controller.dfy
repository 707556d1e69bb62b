/** The controller of the theme window: it lists the themes, loads the one
    the user picks into the editor, saves the editor's data under the
    picked name, and asks the application to apply a theme. */
module ThemeController {
  import opened Common
  import opened JsonValue
  import opened Files
  import opened ThemeModel
  import opened ThemeView

  /** What the controller asks of the theme view and the application.
      `ShowMessage(text, withError, success)`: `show_message` with `text`,
      followed by the exception's text when `withError` holds. */
  datatype ViewEvent =
    | ListThemes(themes: seq<string>)
    | DisplayThemeData(data: Json)
    | ShowMessage(text: string, withError: bool, success: bool)
    | ApplyThemeCallback(themeName: string)
    | Printed(text: string)

  const NoThemeSelected := "No theme selected."
  const ThemeSaved := "Theme saved successfully."
  const LoadFailed := "Failed to load theme data: "

  /** The callbacks the controller hands to its view. */
  const ControllerCallbacks: seq<string> := ["theme_selected", "save_theme"]

  /** Python truthiness of `current_theme` (None or a str). */
  predicate Selected(current: Option<string>) {
    current.Some? && current.value != ""
  }

  /** What `theme_selected` asks of the view once the file has been read:
      a message when it could not be read; otherwise the data goes to
      `display_theme_data`, and the message follows when that raises part
      way (a theme that is not a dict, or a category it cannot iterate). */
  function SelectionEvents(data: Option<Json>): (es: seq<ViewEvent>)
    ensures ShowMessage(LoadFailed, true, true) in es <==> data.None? || !Displays(data.value)
    ensures DisplayThemeData(data.GetOr(JNull)) in es <==> data.Some?
  {
    if data.None? then [ShowMessage(LoadFailed, true, true)]
    else [DisplayThemeData(data.value)] + (if Displays(data.value) then [] else [ShowMessage(LoadFailed, true, true)])
  }

  /** The editor cannot reopen a theme it saved: the flat dict `save_theme`
      writes is read back as written, and displaying it raises, so the
      selection ends in the failure message. */
  lemma SavedThemeReopensWithError(files: seq<(Path, Option<Json>)>, p: Path, w: Widgets)
    requires |w| > 0
    ensures LoadFrom(Put(files, p, Some(SavedTheme(w))), p) == Some(SavedTheme(w))
    ensures SelectionEvents(LoadFrom(Put(files, p, Some(SavedTheme(w))), p)) ==
              [DisplayThemeData(SavedTheme(w)), ShowMessage(LoadFailed, true, true)]
  {
    DumpThenLoad(files, p, SavedTheme(w), p);
    SavedThemeNotDisplayed(w);
  }

  class ThemeController {
    const model: ThemeModel
    /** The editor window, attached after construction by `set_view`. */
    var view: ThemeView?
    /** The names in the application's callback dict. */
    const applicationCallbacks: set<string>
    var currentTheme: Option<string>
    var events: seq<ViewEvent>

    constructor (model: ThemeModel, applicationCallbacks: set<string>)
      ensures this.model == model && this.applicationCallbacks == applicationCallbacks
      ensures view == null && currentTheme == None && events == []
    {
      this.model := model;
      this.view := null;
      this.applicationCallbacks := applicationCallbacks;
      currentTheme := None;
      events := [];
    }

    /** `apply_theme(name)`: the application's `apply_theme` callback is
        called; when the dict has no such entry the KeyError is reported as
        a failure. */
    method ApplyTheme(themeName: string)
      modifies this
      ensures currentTheme == old(currentTheme) && view == old(view)
      ensures "apply_theme" in applicationCallbacks ==> events == old(events) + [ApplyThemeCallback(themeName)]
      ensures "apply_theme" !in applicationCallbacks ==>
                events == old(events) + [ShowMessage("Failed to apply theme: ", true, false)]
    {
      if "apply_theme" in applicationCallbacks {
        events := events + [ApplyThemeCallback(themeName)];
      } else {
        events := events + [ShowMessage("Failed to apply theme: ", true, false)];
      }
    }

    /** `load_themes()`: the model's list goes to the view unchanged; a
        failure to list the folder is only printed. */
    method LoadThemes()
      modifies this
      ensures currentTheme == old(currentTheme) && view == old(view)
      ensures model.disk.ListDir(model.themesDirectory).Some? ==>
                events == old(events) + [ListThemes(ThemeNames(model.disk.ListDir(model.themesDirectory).value))]
      ensures model.disk.ListDir(model.themesDirectory).None? ==>
                events == old(events) + [Printed("Failed to load themes: ")]
    {
      var themes := model.GetThemes();
      if themes.Some? {
        events := events + [ListThemes(themes.value)];
      } else {
        events := events + [Printed("Failed to load themes: ")];
      }
    }

    /** `set_view(view)` */
    method SetView(view: ThemeView)
      modifies this
      ensures this.view == view
      ensures currentTheme == old(currentTheme) && events == old(events)
    {
      this.view := view;
    }

    /** `theme_selected(name)`: the name is recorded first, then the data is
        loaded and handed to the view. A file that is missing or not JSON,
        or a display that raises, ends in a message, with `current_theme`
        already changed. */
    method ThemeSelected(themeName: string)
      requires view != null
      modifies this, view
      ensures view == old(view)
      ensures currentTheme == Some(themeName)
      ensures events == old(events) + SelectionEvents(model.disk.Load(model.ThemeFile(themeName)))
      ensures var data := model.disk.Load(model.ThemeFile(themeName));
              data.Some? && Displays(data.value) ==> view.widgets == AllPages([], data.value.members).value
    {
      currentTheme := Some(themeName);
      var data := model.GetThemeData(themeName);
      if data.None? {
        events := events + [ShowMessage(LoadFailed, true, true)];
        return;
      }
      events := events + [DisplayThemeData(data.value)];
      var shown := view.DisplayThemeData(data.value);
      if !shown {
        events := events + [ShowMessage(LoadFailed, true, true)];
      }
    }

    /** `save_theme(data)`: with no theme selected nothing is written and
        "No theme selected." is shown; otherwise the data is saved under the
        selected name and success is reported unless the write is refused. */
    method SaveTheme(data: Json)
      modifies this, model.disk
      ensures currentTheme == old(currentTheme) && view == old(view)
      ensures !Selected(currentTheme) ==>
                model.disk.files == old(model.disk.files) &&
                events == old(events) + [ShowMessage(NoThemeSelected, false, true)]
      ensures Selected(currentTheme) && model.themesDirectory in model.disk.writable ==>
                model.disk.files == Put(old(model.disk.files), model.ThemeFile(currentTheme.value), Some(data)) &&
                events == old(events) + [ShowMessage(ThemeSaved, false, true)]
      ensures Selected(currentTheme) && model.themesDirectory !in model.disk.writable ==>
                model.disk.files == old(model.disk.files) &&
                events == old(events) + [ShowMessage("Failed to save theme: ", true, true)]
    {
      if Selected(currentTheme) {
        var ok := model.SaveThemeData(currentTheme.value, data);
        if ok {
          events := events + [ShowMessage(ThemeSaved, false, true)];
        } else {
          events := events + [ShowMessage("Failed to save theme: ", true, true)];
        }
      } else {
        events := events + [ShowMessage(NoThemeSelected, false, true)];
      }
    }
  }
}
