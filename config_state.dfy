/**
 * The `useScrollbarConfig` hook: the current configuration and theme, kept
 * in step with the document (every change is applied) and with local storage
 * (every change is saved). Mounting loads the saved configuration, runs the
 * mount effects in React's order and takes the theme from the system
 * preference, which is a parameter here.
 */
module ConfigState {
  import opened Wrappers
  import opened Config
  import opened Codec
  import opened StyleApplier
  import opened Storage
  import opened Presets
  import opened Randomizer

  /**
   * The document shows `c`: one dynamic style element, the last one, holding
   * the rules for `c`; every custom property as `apply(c)` writes it; and the
   * body overflow `apply(c)` sets, unless `c` hides the scrollbar.
   */
  predicate Shows(d: DocumentState, c: ScrollbarConfig) {
    && CountId(d.styles, DynamicStyleId) == 1
    && |d.styles| > 0 && d.styles[|d.styles| - 1] == StyleElement(DynamicStyleId, InjectedCss(c))
    && (forall name :: name in CustomPropertyNames ==> name in d.rootProps && d.rootProps[name] == CustomProperties(c)[name])
    && (c.visibility == Visible ==> d.bodyOverflow == "scroll")
    && (c.visibility == Auto ==> d.bodyOverflow == "auto")
  }

  /** After `apply(c)` the document shows `c`, whatever it showed before. */
  lemma AppliedShows(d: DocumentState, c: ScrollbarConfig)
    requires CountId(d.styles, DynamicStyleId) <= 1
    ensures Shows(Applied(d, c), c)
  {
    AppliedLeavesOneDynamicStyle(d, c);
    AppliedCustomProperties(d, c);
  }

  /**
   * The applications the mount sequence makes, as written: the load effect
   * applies the saved configuration (or the default); the save effect runs
   * with the first render's configuration, the default; when a saved
   * configuration was set, the re-render runs the save effect again with it;
   * last, the 100 ms timer applies the configuration its closure captured at
   * the first render, the default.
   */
  function MountAsWritten(d: DocumentState, saved: Option<ScrollbarConfig>): DocumentState {
    Applied(AfterMountEffects(d, saved), DefaultConfig)
  }

  /** The document once the load effect and the save effect (and its re-run) are done, before the timer. */
  function AfterMountEffects(d: DocumentState, saved: Option<ScrollbarConfig>): DocumentState {
    var loaded := Applied(d, saved.GetOr(DefaultConfig));
    var firstSave := Applied(loaded, DefaultConfig);
    if saved.Some? then Applied(firstSave, saved.value) else firstSave
  }

  lemma AfterMountEffectsCount(d: DocumentState, saved: Option<ScrollbarConfig>)
    requires CountId(d.styles, DynamicStyleId) <= 1
    ensures CountId(AfterMountEffects(d, saved).styles, DynamicStyleId) == 1
  {
    var loaded := Applied(d, saved.GetOr(DefaultConfig));
    AppliedLeavesOneDynamicStyle(d, saved.GetOr(DefaultConfig));
    AppliedLeavesOneDynamicStyle(loaded, DefaultConfig);
    if saved.Some? {
      AppliedLeavesOneDynamicStyle(Applied(loaded, DefaultConfig), saved.value);
    }
  }

  /** As written, the mount sequence always ends showing the default configuration. */
  lemma MountAsWrittenShowsDefault(d: DocumentState, saved: Option<ScrollbarConfig>)
    requires CountId(d.styles, DynamicStyleId) <= 1
    ensures Shows(MountAsWritten(d, saved), DefaultConfig)
  {
    AfterMountEffectsCount(d, saved);
    AppliedShows(AfterMountEffects(d, saved), DefaultConfig);
  }

  /**
   * Any saved configuration that shows its scrollbar with a thumb colour
   * other than the default's is lost from the document at mount, although
   * the hook's configuration is that saved one.
   */
  lemma StaleTimerLosesSaved(d: DocumentState, saved: ScrollbarConfig)
    requires CountId(d.styles, DynamicStyleId) <= 1
    requires saved.visibility != Hidden && saved.thumbColor != DefaultConfig.thumbColor
    ensures MountAsWritten(d, Some(saved)).rootProps["--scrollbar-thumb-color"] == DefaultConfig.thumbColor
    ensures !Shows(MountAsWritten(d, Some(saved)), saved)
  {
    MountAsWrittenShowsDefault(d, Some(saved));
    assert CustomProperties(saved)["--scrollbar-thumb-color"] == saved.thumbColor;
  }

  /** The configuration of the `Dark Mode` preset, saved, is one such input. */
  lemma StaleTimerCounterexample(d: DocumentState)
    requires CountId(d.styles, DynamicStyleId) <= 1
    ensures var saved := ScrollbarConfig("#374151", "#1f2937", "#4b5563", 8, 8, 5, 5, Auto, None);
      && MountAsWritten(d, Some(saved)).rootProps["--scrollbar-thumb-color"] == "#94a3b8"
      && !Shows(MountAsWritten(d, Some(saved)), saved)
  {
    StaleTimerLosesSaved(d, ScrollbarConfig("#374151", "#1f2937", "#4b5563", 8, 8, 5, 5, Auto, None));
  }

  /** The mount sequence with the timer applying the current configuration, as its comment intends. */
  function MountIntended(d: DocumentState, saved: Option<ScrollbarConfig>): DocumentState {
    Applied(AfterMountEffects(d, saved), saved.GetOr(DefaultConfig))
  }

  /** Corrected, the mount sequence ends showing the loaded configuration, or the default when none loads. */
  lemma MountIntendedShowsLoaded(d: DocumentState, saved: Option<ScrollbarConfig>)
    requires CountId(d.styles, DynamicStyleId) <= 1
    ensures Shows(MountIntended(d, saved), saved.GetOr(DefaultConfig))
  {
    AfterMountEffectsCount(d, saved);
    AppliedShows(AfterMountEffects(d, saved), saved.GetOr(DefaultConfig));
  }

  /** The two sequences differ only when a saved configuration other than the default is loaded. */
  lemma MountAgreesWithoutSaved(d: DocumentState)
    ensures MountAsWritten(d, None) == MountIntended(d, None)
  {
  }

  /** A second write to the same key replaces the first. */
  lemma OverwriteKey(m: map<string, string>, key: string, first: string, second: string)
    ensures m[key := first][key := second] == m[key := second]
  {
  }

  class ScrollbarConfigState {
    var config: ScrollbarConfig
    var theme: ThemeMode
    const document: Document
    const storage: BrowserStorage

    /**
     * The hook's invariant: the document shows the configuration, and the
     * storage holds it whenever it can be written.
     */
    predicate Synced()
      reads this, document, storage
    {
      && Shows(document.State(), config)
      && (storage.Writable() ==> Loaded(storage.items, storage.disabled) == Some(config))
    }

    /** Mounting the hook, with the system's dark-mode preference given. */
    constructor (document: Document, storage: BrowserStorage, prefersDark: bool)
      requires CountId(document.styles, DynamicStyleId) <= 1
      modifies document, storage`items
      ensures this.document == document && this.storage == storage
      ensures config == old(Loaded(storage.items, storage.disabled)).GetOr(DefaultConfig)
      ensures theme == if prefersDark then Dark else Light
      ensures document.State() == MountIntended(old(document.State()), old(Loaded(storage.items, storage.disabled)))
      ensures storage.items == if storage.Writable() then old(storage.items)[ConfigKey := Encode(config)] else old(storage.items)
      ensures Synced()
    {
      this.document := document;
      this.storage := storage;
      new;
      Mount(prefersDark);
    }

    /** The mount: the effects, with the configuration they settle on, and the theme. */
    method Mount(prefersDark: bool)
      requires CountId(document.styles, DynamicStyleId) <= 1
      modifies this`config, this`theme, document, storage`items
      ensures config == old(Loaded(storage.items, storage.disabled)).GetOr(DefaultConfig)
      ensures theme == if prefersDark then Dark else Light
      ensures document.State() == MountIntended(old(document.State()), old(Loaded(storage.items, storage.disabled)))
      ensures storage.items == if storage.Writable() then old(storage.items)[ConfigKey := Encode(config)] else old(storage.items)
      ensures Synced()
    {
      theme := if prefersDark then Dark else Light;
      config := RunMountEffects();
    }

    /**
     * Loading and the load effect's `apply`, the save effect for the first
     * render and, after a load, for the re-render, then the timer's `apply`
     * of the current configuration.
     */
    method RunMountEffects() returns (current: ScrollbarConfig)
      requires CountId(document.styles, DynamicStyleId) <= 1
      modifies document, storage`items
      ensures current == old(Loaded(storage.items, storage.disabled)).GetOr(DefaultConfig)
      ensures document.State() == MountIntended(old(document.State()), old(Loaded(storage.items, storage.disabled)))
      ensures Shows(document.State(), current)
      ensures storage.items == if storage.Writable() then old(storage.items)[ConfigKey := Encode(current)] else old(storage.items)
      ensures storage.Writable() ==> Loaded(storage.items, storage.disabled) == Some(current)
    {
      ghost var d0 := document.State();
      ghost var items0 := storage.items;
      var saved := storage.LoadConfig();
      current := saved.GetOr(DefaultConfig);
      document.Apply(current);
      ConfigEffect(DefaultConfig);
      if saved.Some? {
        ConfigEffect(current);
        OverwriteKey(items0, ConfigKey, Encode(DefaultConfig), Encode(current));
      }
      assert storage.items == if storage.Writable() then items0[ConfigKey := Encode(current)] else items0;
      ghost var d1 := document.State();
      assert d1 == AfterMountEffects(d0, saved);
      document.Apply(current);
      assert document.State() == Applied(d1, current);
      assert document.State() == MountIntended(d0, saved);
      MountIntendedShowsLoaded(d0, saved);
    }

    /** The effect that runs for every new configuration: apply it to the document, then save it. */
    method ConfigEffect(c: ScrollbarConfig)
      modifies document, storage`items
      ensures document.State() == Applied(old(document.State()), c)
      ensures storage.items == if storage.Writable() then old(storage.items)[ConfigKey := Encode(c)] else old(storage.items)
      ensures storage.Writable() ==> Loaded(storage.items, storage.disabled) == Some(c)
    {
      document.Apply(c);
      storage.SaveConfig(c);
    }

    /** `setConfig(c)`, followed by the effect that applies and saves every new configuration. */
    method SetConfig(c: ScrollbarConfig)
      requires Synced()
      modifies this`config, document, storage`items
      ensures config == c && theme == old(theme)
      ensures document.State() == Applied(old(document.State()), c)
      ensures storage.items == if storage.Writable() then old(storage.items)[ConfigKey := Encode(c)] else old(storage.items)
      ensures Synced()
    {
      config := c;
      AppliedShows(document.State(), c);
      ConfigEffect(c);
    }

    /** `updateConfig(partial)`: the given fields replace the current ones. */
    method UpdateConfig(update: PartialConfig)
      requires Synced()
      modifies this`config, document, storage`items
      ensures config == Merge(old(config), update) && theme == old(theme)
      ensures forall f :: Get(config, f) == PartialGet(update, f).GetOr(Get(old(config), f))
      ensures document.State() == Applied(old(document.State()), config)
      ensures storage.items == if storage.Writable() then old(storage.items)[ConfigKey := Encode(config)] else old(storage.items)
      ensures Synced()
    {
      SetConfig(Merge(config, update));
    }

    /** `resetConfig()`. */
    method ResetConfig()
      requires Synced()
      modifies this`config, document, storage`items
      ensures config == DefaultConfig && theme == old(theme)
      ensures document.State() == Applied(old(document.State()), DefaultConfig)
      ensures storage.items == if storage.Writable() then old(storage.items)[ConfigKey := Encode(DefaultConfig)] else old(storage.items)
      ensures Synced()
    {
      SetConfig(DefaultConfig);
    }

    /** Choosing preset `i`: it becomes the current preset, and no other preset is. */
    method SelectPreset(i: nat)
      requires Synced() && i < |Catalogue|
      modifies this`config, document, storage`items
      ensures config == Catalogue[i].config && theme == old(theme)
      ensures document.State() == Applied(old(document.State()), config)
      ensures storage.items == if storage.Writable() then old(storage.items)[ConfigKey := Encode(config)] else old(storage.items)
      ensures IsCurrentPreset(Catalogue[i].config, config)
      ensures forall j :: 0 <= j < |Catalogue| && j != i ==> !IsCurrentPreset(Catalogue[j].config, config)
      ensures Synced()
    {
      SetConfig(Catalogue[i].config);
      forall j | 0 <= j < |Catalogue| && j != i
        ensures !IsCurrentPreset(Catalogue[j].config, config)
      {
        if IsCurrentPreset(Catalogue[j].config, config) {
          AtMostOneCurrent(config, i, j);
        }
      }
    }

    /** The randomize button: `setConfig(randomizeConfig())` with the draws given. */
    method SetRandomConfig(draws: seq<real>)
      requires Synced() && |draws| >= MaxDraws && ValidDraws(draws)
      modifies this`config, document, storage`items
      ensures config == Randomize(draws) && theme == old(theme)
      ensures document.State() == Applied(old(document.State()), config)
      ensures storage.items == if storage.Writable() then old(storage.items)[ConfigKey := Encode(config)] else old(storage.items)
      ensures IsRandomShape(config)
      ensures Synced()
    {
      RandomizeIsRandomShape(draws);
      SetConfig(Randomize(draws));
    }

    /** `toggleTheme()`: nothing but the theme changes. */
    method ToggleTheme()
      modifies this`theme
      ensures theme == Toggled(old(theme)) && theme != old(theme)
    {
      theme := Toggled(theme);
    }
  }
}
