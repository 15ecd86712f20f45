/**
 * The event dispatcher the service providers register their asset-flushing
 * listeners on, and what those listeners do for each event.
 */
module Events {
  import opened Text

  /** Settings\Event\Saved, Extension\Event\Enabled and Extension\Event\Disabled. */
  datatype Event = Saved(key: string, value: string) | Enabled(extension: string) | Disabled(extension: string)

  /** The event class a listener is registered for. */
  datatype EventClass = SavedClass | EnabledClass | DisabledClass

  function ClassOf(e: Event): EventClass
  {
    match e
    case Saved(_, _) => SavedClass
    case Enabled(_) => EnabledClass
    case Disabled(_) => DisabledClass
  }

  /**
   * The listeners the forum and admin providers register: the closure that
   * flushes CSS when a theme setting is saved, and `flushWebAppAssets`.
   */
  datatype Listener = FlushCssWhenThemeChanged | FlushWebAppAssets

  /** `getWebAppAssets()->flushCss()` and `getWebAppAssets()->flush()`. */
  datatype AssetAction = FlushCss | FlushAll

  /**
   * `preg_match('/^theme_|^custom_less$/i', $key)`: the key starts with
   * `theme_`, or is `custom_less`, up to ASCII case. Without the D modifier
   * PCRE's `$` also matches just before a final newline, so `custom_less`
   * followed by one "\n" matches too.
   */
  function ThemeKeyFlushesCss(key: string): (r: bool)
    ensures r ==> |key| >= 6
    ensures r ==> Lower(key[0]) == 't' || Lower(key[0]) == 'c'
  {
    StartsWithIgnoreCase(key, "theme_")
    || EqualsIgnoreCase(key, "custom_less")
    || EqualsIgnoreCase(key, "custom_less\n")
  }

  /** The same test, stated on the key folded to lower case. */
  lemma ThemeKeyFoldedForm(key: string)
    ensures ThemeKeyFlushesCss(key) <==>
      (|key| >= 6 && LowerAscii(key)[..6] == "theme_")
      || LowerAscii(key) == "custom_less"
      || LowerAscii(key) == "custom_less\n"
  {
    StartsWithIgnoreCaseLowerLiteral(key, "theme_");
    EqualsIgnoreCaseLowerLiteral(key, "custom_less");
    EqualsIgnoreCaseLowerLiteral(key, "custom_less\n");
  }

  /** Keys that differ only in ASCII case get the same answer. */
  lemma ThemeKeyIgnoresCase(a: string, b: string)
    requires LowerAscii(a) == LowerAscii(b)
    ensures ThemeKeyFlushesCss(a) <==> ThemeKeyFlushesCss(b)
  {
    ThemeKeyFoldedForm(a);
    ThemeKeyFoldedForm(b);
  }

  /** Sample keys: which ones flush the CSS and which ones do not. */
  lemma ThemeKeyExamples()
    ensures ThemeKeyFlushesCss("theme_primary_color")
    ensures ThemeKeyFlushesCss("THEME_dark_mode")
    ensures ThemeKeyFlushesCss("Custom_LESS")
    ensures ThemeKeyFlushesCss("custom_less\n")
    ensures !ThemeKeyFlushesCss("custom_less_extra")
    ensures !ThemeKeyFlushesCss("forum_theme_color")
    ensures !ThemeKeyFlushesCss("theme")
  {
    assert "theme_primary_color"[..6] == "theme_";
    assert "THEME_dark_mode"[..6] == "THEME_";
    assert "forum_theme_color"[0] == 'f';
    assert "custom_less_extra"[0] == 'c';
  }

  /** What one listener does when it is called with `e`. */
  function React(listener: Listener, e: Event): (r: seq<AssetAction>)
    ensures |r| <= 1
    ensures listener == FlushWebAppAssets ==> r == [FlushAll]
    ensures listener == FlushCssWhenThemeChanged ==>
      r == (if e.Saved? && ThemeKeyFlushesCss(e.key) then [FlushCss] else [])
  {
    match listener
    case FlushWebAppAssets => [FlushAll]
    case FlushCssWhenThemeChanged =>
      if e.Saved? && ThemeKeyFlushesCss(e.key) then [FlushCss] else []
  }

  /** Firing `e` calls, in registration order, every listener registered for its class. */
  function Reactions(registered: seq<(EventClass, Listener)>, e: Event): (r: seq<AssetAction>)
    ensures |r| <= |registered|
    ensures (forall i :: 0 <= i < |registered| ==> registered[i].0 != ClassOf(e)) ==> r == []
  {
    if registered == [] then []
    else
      (if registered[0].0 == ClassOf(e) then React(registered[0].1, e) else [])
      + Reactions(registered[1..], e)
  }

  /** Registering more listeners only adds their reactions after the earlier ones. */
  lemma {:induction false} ReactionsAppend(a: seq<(EventClass, Listener)>, b: seq<(EventClass, Listener)>, e: Event)
    ensures Reactions(a + b, e) == Reactions(a, e) + Reactions(b, e)
  {
    if a == [] {
      assert a + b == b;
    } else {
      assert (a + b)[1..] == a[1..] + b;
      ReactionsAppend(a[1..], b, e);
    }
  }

  /**
   * The three registrations both the forum and the admin provider make: the
   * theme listener for Saved, and `flushWebAppAssets` for Enabled and Disabled.
   */
  const AssetListeners: seq<(EventClass, Listener)> := [
    (SavedClass, FlushCssWhenThemeChanged),
    (EnabledClass, FlushWebAppAssets),
    (DisabledClass, FlushWebAppAssets)
  ]

  /** The asset actions an event causes through the asset listeners alone. */
  function AssetReaction(e: Event): (r: seq<AssetAction>)
    ensures e.Saved? ==> (r == [FlushCss] <==> ThemeKeyFlushesCss(e.key))
    ensures e.Saved? && !ThemeKeyFlushesCss(e.key) ==> r == []
    ensures !e.Saved? ==> r == [FlushAll]
  {
    match e
    case Saved(key, _) => if ThemeKeyFlushesCss(key) then [FlushCss] else []
    case Enabled(_) => [FlushAll]
    case Disabled(_) => [FlushAll]
  }

  /**
   * Registering the asset listeners after any others adds exactly their
   * reaction, after whatever the earlier listeners do.
   */
  lemma AssetListenersReact(before: seq<(EventClass, Listener)>, e: Event)
    ensures Reactions(before + AssetListeners, e) == Reactions(before, e) + AssetReaction(e)
  {
    ReactionsAppend(before, AssetListeners, e);
    var l := AssetListeners;
    assert Reactions(l[1..][1..][1..], e) == [];
    assert Reactions(l[1..][1..], e) == (if e.Disabled? then [FlushAll] else []);
    assert Reactions(l[1..], e) == (if e.Saved? then [] else [FlushAll]);
  }

  class Dispatcher {
    /** The registered listeners, each with the event class it listens for. */
    var listeners: seq<(EventClass, Listener)>

    constructor ()
      ensures listeners == []
    {
      listeners := [];
    }

    /** `$events->listen($class, $listener)`. */
    method Listen(c: EventClass, listener: Listener)
      modifies this
      ensures listeners == old(listeners) + [(c, listener)]
    {
      listeners := listeners + [(c, listener)];
    }

    /** The asset actions that firing `e` causes. */
    function Fire(e: Event): seq<AssetAction>
      reads this
    {
      Reactions(listeners, e)
    }
  }
}
