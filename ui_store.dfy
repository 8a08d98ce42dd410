/** The interface preferences: the colour theme. */
module UiStore {
  import Migrations

  datatype Theme = Light | Dark

  /** `theme === "dark" ? "light" : "dark"` */
  function Toggled(t: Theme): (r: Theme)
    ensures r != t
    ensures r == Light <==> t == Dark
  {
    if t == Dark then Light else Dark
  }

  lemma ToggleTwiceRestores(t: Theme)
    ensures Toggled(Toggled(t)) == t
  {
  }

  class Store {
    var theme: Theme
    var schemaVersion: int

    constructor ()
      ensures theme == Light && schemaVersion == Migrations.CURRENT_SCHEMA_VERSION
    {
      theme := Light;
      schemaVersion := Migrations.CURRENT_SCHEMA_VERSION;
    }

    method SetTheme(t: Theme)
      modifies this
      ensures theme == t && schemaVersion == old(schemaVersion)
    {
      theme := t;
    }

    method ToggleTheme()
      modifies this
      ensures theme == Toggled(old(theme)) && schemaVersion == old(schemaVersion)
    {
      theme := if theme == Dark then Light else Dark;
    }
  }
}
