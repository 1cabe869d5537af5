/**
 * `ThemeProvider`: a light/dark mode that can be toggled, a switch that
 * turns theming off, and the mode kept in `localStorage` under `themeMode`.
 *
 * The stored mode is read back with an unchecked cast, so the mode is any
 * string here; the toggle and the palette only ever produce 'light' or
 * 'dark' from it.
 */
module ThemeContext {
  import opened Wrappers

  const Light: string := "light"
  const Dark: string := "dark"
  const StorageKey: string := "themeMode"

  /** `prevMode === 'light' ? 'dark' : 'light'` */
  function Toggled(mode: string): (r: string)
    ensures r == Light || r == Dark
    ensures r != mode
    ensures mode == Dark ==> r == Light
  {
    if mode == Light then Dark else Light
  }

  /** Toggling twice gives back a light or dark mode, and normalises any other one to 'dark'. */
  lemma ToggleTwice(mode: string)
    ensures mode == Light || mode == Dark ==> Toggled(Toggled(mode)) == mode
    ensures mode != Light && mode != Dark ==> Toggled(Toggled(mode)) == Dark
  {
  }

  /** The mode given to the palette: 'light' while theming is off. */
  function PaletteMode(mode: string, disableTheming: bool): (r: string)
    ensures disableTheming ==> r == Light
    ensures !disableTheming ==> r == mode
  {
    if disableTheming then Light else mode
  }

  /** `localStorage.getItem('themeMode')` when it is a non-empty string. */
  function SavedMode(storage: map<string, string>): Option<string>
  {
    if StorageKey in storage && storage[StorageKey] != "" then Some(storage[StorageKey]) else None
  }

  class ThemeProvider {
    var mode: string
    var disableTheming: bool
    /** `localStorage` */
    var storage: map<string, string>

    /** While theming is on, the stored mode is the current one. */
    predicate Persisted()
      reads this
    {
      !disableTheming ==> StorageKey in storage && storage[StorageKey] == mode
    }

    /**
     * Mounting with theming on: the first render is 'light' and its persist
     * effect stores 'light'; the restore effect then switches to the saved
     * mode, if any, and the next persist effect stores that. The end state
     * holds the saved mode and has it stored.
     */
    constructor (storage: map<string, string>)
      ensures !disableTheming && Persisted()
      ensures mode == if SavedMode(storage).Some? then SavedMode(storage).value else Light
      ensures this.storage == storage[StorageKey := mode]
    {
      mode := Light;
      disableTheming := false;
      this.storage := storage;
      new;
      var saved := SavedMode(this.storage);
      this.storage := this.storage[StorageKey := mode];
      if saved.Some? {
        var previous := mode;
        mode := saved.value;
        if mode != previous {
          this.storage := this.storage[StorageKey := mode];
        }
      }
    }

    /** `toggleTheme`: flips the mode and stores it while theming is on; does nothing while it is off. */
    method Toggle()
      requires Persisted()
      modifies this`mode, this`storage
      ensures Persisted()
      ensures disableTheming ==> mode == old(mode) && storage == old(storage)
      ensures !disableTheming ==> mode == Toggled(old(mode)) && storage == old(storage)[StorageKey := mode]
      ensures !disableTheming ==> PaletteMode(mode, disableTheming) != PaletteMode(old(mode), disableTheming)
    {
      if !disableTheming {
        mode := Toggled(mode);
        storage := storage[StorageKey := mode];
      }
    }

    /**
     * `setDisableTheming`: turning theming back on stores the current mode;
     * turning it off stores nothing, and leaves the mode as it is.
     */
    method SetDisableTheming(disable: bool)
      requires Persisted()
      modifies this`disableTheming, this`storage
      ensures Persisted()
      ensures disableTheming == disable
      ensures storage == if !disable && old(disableTheming) then old(storage)[StorageKey := mode] else old(storage)
    {
      var previous := disableTheming;
      disableTheming := disable;
      if disable != previous && !disable {
        storage := storage[StorageKey := mode];
      }
    }
  }
}
