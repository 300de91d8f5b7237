/**
  The main window as an object: it holds the model, the contents of the two
  text fields, and what its labels and buttons last showed. Every handled
  action changes the model through one App method and then refreshes the
  whole display, so the display always agrees with the model.
*/
module MainWindowModel {
  import opened CatStore
  import opened AppModel
  import opened ViewLogic

  class MainWindow {
    const app: App
    var nameText: string
    var colourText: string
    /** What the labels and buttons show, as last set by UpdateView. */
    var shown: Display

    /** The model is consistent and the display shows its current state. */
    ghost predicate Valid()
      reads this, app, app.cats
    {
      app.Valid() && shown == Render(app.State())
    }

    /** The abstract value the window's actions act on. */
    ghost function Current(): Screen
      reads this, app
    {
      Screen(app.State(), nameText, colourText)
    }

    /** The window starts with empty text fields and a display of the model. */
    constructor (app: App)
      requires app.Valid()
      ensures Valid() && this.app == app
      ensures nameText == "" && colourText == ""
    {
      this.app := app;
      nameText := "";
      colourText := "";
      new;
      UpdateView();
    }

    /** Refresh every label and button from the model. */
    method UpdateView()
      requires app.Valid()
      modifies this
      ensures shown == Render(app.State())
      ensures nameText == old(nameText) && colourText == old(colourText)
      ensures app.State() == old(app.State())
    {
      var cat := app.cats[app.currentCat];
      var tint := if cat.alive then AliveColour else DeadColour;
      shown := Display(
        app.currentCat + 1,
        cat.name,
        cat.colour,
        if cat.alive then AliveGlyph else DeadGlyph,
        tint,
        app.currentCat > 0,
        app.currentCat < |app.cats| - 1,
        cat.alive);
    }

    /** The user editing the two text fields; the window does not react to it. */
    method EditTexts(name: string, colour: string)
      requires Valid()
      modifies this
      ensures Valid() && nameText == name && colourText == colour && shown == old(shown)
    {
      nameText := name;
      colourText := colour;
    }

    /** Handle one user action: update the model, then the display. */
    method ActionPerformed(e: Event)
      requires Valid()
      modifies this, app, app.cats
      ensures Valid()
      ensures Current() == Dispatch(old(Current()), e)
      ensures forall i :: 0 <= i < |app.cats| ==> app.cats[i] in old(app.cats) || fresh(app.cats[i])
    {
      match e
      case NextButton => OnNext();
      case PrevButton => OnPrev();
      case KillButton => OnKill();
      case AddAction => OnAdd();
    }

    method OnNext()
      requires Valid()
      modifies this, app
      ensures Valid() && app.cats == old(app.cats)
      ensures Current() == Dispatch(old(Current()), NextButton)
    {
      app.NextCat();
      UpdateView();
    }

    method OnPrev()
      requires Valid()
      modifies this, app
      ensures Valid() && app.cats == old(app.cats)
      ensures Current() == Dispatch(old(Current()), PrevButton)
    {
      app.PrevCat();
      UpdateView();
    }

    method OnKill()
      requires Valid()
      modifies this, app, app.cats
      ensures Valid() && app.cats == old(app.cats)
      ensures Current() == Dispatch(old(Current()), KillButton)
    {
      app.KillCat();
      UpdateView();
    }

    /** The add button, or Enter in either text field: add only when both fields are non-blank. */
    method OnAdd()
      requires Valid()
      modifies this, app
      ensures Valid()
      ensures |app.cats| >= |old(app.cats)| && app.cats[..|old(app.cats)|] == old(app.cats)
      ensures forall i :: |old(app.cats)| <= i < |app.cats| ==> fresh(app.cats[i])
      ensures Current() == Dispatch(old(Current()), AddAction)
    {
      if !IsBlank(nameText) && !IsBlank(colourText) {
        var name := nameText;
        var colour := colourText;
        app.NewCat(name, colour);
        nameText := "";
        colourText := "";
        UpdateView();
      }
    }
  }

  /** Start-up, then previous at the first cat: nothing moves and previous stays disabled. */
  method SessionPrevAtStart() {
    var app := new App();
    var window := new MainWindow(app);
    assert window.shown.number == 1 && !window.shown.prevEnabled && window.shown.killEnabled;
    window.ActionPerformed(PrevButton);
    assert app.currentCat == 0 && !window.shown.prevEnabled;
  }

  /** Killing the shown cat disables kill and shows the dead glyph; a second kill changes nothing. */
  method SessionKill() {
    var app := new App();
    var window := new MainWindow(app);
    window.ActionPerformed(KillButton);
    assert !window.shown.killEnabled && window.shown.glyph == DeadGlyph;
    ghost var afterKill := window.Current();
    window.ActionPerformed(KillButton);
    assert window.Current() == afterKill;
  }

  /** A blank name is ignored; a complete form adds a sixth cat, shows it and clears the fields. */
  method SessionAdd() {
    var app := new App();
    var window := new MainWindow(app);
    window.EditTexts("", "Grey");
    ghost var beforeAdd := window.Current();
    window.ActionPerformed(AddAction);
    assert window.Current() == beforeAdd;

    window.EditTexts("Whiskers", "Grey");
    assert !IsBlank(window.nameText) by { assert !IsWhitespace(window.nameText[0]); }
    assert !IsBlank(window.colourText) by { assert !IsWhitespace(window.colourText[0]); }
    window.ActionPerformed(AddAction);
    assert |app.cats| == 6 && app.currentCat == 5;
    assert window.shown.name == "Whiskers" && !window.shown.nextEnabled && window.shown.prevEnabled;
    assert window.nameText == "" && window.colourText == "";
  }
}
