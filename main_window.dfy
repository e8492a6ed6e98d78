/** The decision logic of the main process (src/main/index.ts): which popups
    stay in the app, where the web view goes in the window, and what the
    window does on close, quit, tray clicks, the global shortcut, maximize and
    back/forward. Electron's window, view and tray objects are replaced by the
    abstract state they expose. */
module MainWindow {
  import opened Wrappers
  import opened Strings

  /** `TITLEBAR_HEIGHT` */
  const TitlebarHeight: int := 32

  /** Hosts whose pages are Google's sign-in flow. */
  const GoogleAuthHosts: seq<string> := ["accounts.google.com", "accounts.youtube.com", "myaccount.google.com"]

  /** `isGoogleAuthURL`: the URL mentions one of the sign-in hosts anywhere. */
  function IsGoogleAuthUrl(url: string): (r: bool)
    ensures r <==> exists h, i :: h in GoogleAuthHosts && OccursAt(url, h, i)
  {
    Contains(url, "accounts.google.com")
    || Contains(url, "accounts.youtube.com")
    || Contains(url, "myaccount.google.com")
  }

  /** A URL that embeds a sign-in host anywhere, with anything around it, is
      a sign-in URL. */
  lemma EmbeddedHostIsAuth(before: string, host: string, after: string)
    requires host in GoogleAuthHosts
    ensures IsGoogleAuthUrl(before + host + after)
  {
    var url := before + host + after;
    assert url[|before|..|before| + |host|] == host;
    assert OccursAt(url, host, |before|);
  }

  datatype Action = Allow | Deny

  /** What the window-open handler returns, and the URL it hands to the
      system browser, if any. */
  datatype WindowOpenResult = WindowOpenResult(action: Action, openedExternally: Option<string>)

  /** The `setWindowOpenHandler` callback: sign-in popups open inside the app;
      every other URL is denied and opened in the default browser. */
  function WindowOpenHandler(url: string): (d: WindowOpenResult)
    ensures d.action == Allow <==> exists h, i :: h in GoogleAuthHosts && OccursAt(url, h, i)
    ensures d.openedExternally.Some? <==> d.action == Deny
    ensures d.openedExternally.Some? ==> d.openedExternally.value == url
  {
    if IsGoogleAuthUrl(url) then WindowOpenResult(Allow, None)
    else WindowOpenResult(Deny, Some(url))
  }

  datatype Bounds = Bounds(x: int, y: int, width: int, height: int)

  /** Height kept free above the web view: macOS draws its traffic lights over
      the content, other platforms show the app's own title bar. */
  function TopOffset(isMac: bool): (offset: int)
    ensures offset == 0 || offset == TitlebarHeight
    ensures offset == 0 <==> isMac
  {
    if isMac then 0 else TitlebarHeight
  }

  /** `layoutViews` for a window whose content area is `width` by `height`:
      the view spans the full width and runs from just below the title bar to
      the bottom edge. */
  function Layout(width: int, height: int, isMac: bool): (b: Bounds)
    ensures b.x == 0 && b.x + b.width == width
    ensures b.y + b.height == height
    ensures b.y == TopOffset(isMac)
    ensures !isMac ==> b.height == height - TitlebarHeight
    ensures isMac ==> b == Bounds(0, 0, width, height)
  {
    var topOffset := TopOffset(isMac);
    Bounds(0, topOffset, width, height - topOffset)
  }

  /** The module-level window state. `hasWindow` is `mainWindow` (with its
      view) existing; `backEntries`/`forwardEntries` count the view's
      navigation history on either side of the current page. */
  class Shell {
    const isMac: bool
    var hasWindow: bool
    var visible: bool
    var focused: bool
    var maximized: bool
    var isQuitting: bool
    var viewBounds: Bounds
    var backEntries: nat
    var forwardEntries: nat

    /** Only a shown window can have focus; without a window nothing is shown. */
    ghost predicate Valid()
      reads this
    {
      (focused ==> visible) && (visible ==> hasWindow) && (!hasWindow ==> !maximized)
    }

    /** The process at start-up: no window yet, not quitting. */
    constructor (isMac: bool)
      ensures Valid()
      ensures this.isMac == isMac && !hasWindow && !isQuitting
    {
      this.isMac := isMac;
      hasWindow, visible, focused, maximized, isQuitting := false, false, false, false, false;
      viewBounds := Bounds(0, 0, 0, 0);
      backEntries, forwardEntries := 0, 0;
    }

    /** `createWindow`: the window is created hidden (`show: false`),
        unmaximized, with a fresh view. */
    method CreateWindow()
      requires Valid()
      modifies this
      ensures Valid()
      ensures hasWindow && !visible && !focused && !maximized
      ensures backEntries == 0 && forwardEntries == 0
      ensures isQuitting == old(isQuitting) && viewBounds == old(viewBounds)
    {
      hasWindow, visible, focused, maximized := true, false, false, false;
      backEntries, forwardEntries := 0, 0;
    }

    /** `layoutViews`, run on resize and on `ready-to-show`; nothing happens
        without a window. */
    method LayoutViews(width: int, height: int)
      requires Valid()
      modifies this`viewBounds
      ensures Valid()
      ensures viewBounds == if hasWindow then Layout(width, height, isMac) else old(viewBounds)
    {
      if hasWindow {
        viewBounds := Layout(width, height, isMac);
      }
    }

    /** `ready-to-show`: lay the view out, then show the window. */
    method ReadyToShow(width: int, height: int)
      requires Valid()
      modifies this
      ensures Valid()
      ensures hasWindow ==> visible && viewBounds == Layout(width, height, isMac)
      ensures !hasWindow ==> visible == old(visible) && viewBounds == old(viewBounds)
      ensures focused == old(focused) && maximized == old(maximized)
      ensures hasWindow == old(hasWindow) && isQuitting == old(isQuitting)
      ensures backEntries == old(backEntries) && forwardEntries == old(forwardEntries)
    {
      LayoutViews(width, height);
      if hasWindow {
        visible := true;
      }
    }

    /** The window's `close` event: unless the app is quitting, the close is
        prevented and the window only hides; otherwise the window goes away. */
    method Close()
      requires Valid()
      modifies this
      ensures Valid()
      ensures !visible && !focused
      ensures hasWindow == (old(hasWindow) && !isQuitting)
      ensures hasWindow ==> maximized == old(maximized)
      ensures isQuitting == old(isQuitting) && viewBounds == old(viewBounds)
      ensures backEntries == old(backEntries) && forwardEntries == old(forwardEntries)
    {
      if hasWindow {
        if !isQuitting {
          visible, focused := false, false;
        } else {
          hasWindow, visible, focused, maximized := false, false, false, false;
        }
      }
    }

    /** `before-quit` */
    method BeforeQuit()
      requires Valid()
      modifies this`isQuitting
      ensures Valid()
      ensures isQuitting
    {
      isQuitting := true;
    }

    /** `app.quit()`: `before-quit` is emitted, then the window is asked to
        close, which now really closes it. */
    method AppQuit()
      requires Valid()
      modifies this
      ensures Valid()
      ensures isQuitting && !hasWindow && !visible && !focused
      ensures viewBounds == old(viewBounds)
      ensures backEntries == old(backEntries) && forwardEntries == old(forwardEntries)
    {
      BeforeQuit();
      Close();
    }

    /** The tray menu's Quit item: mark the quit, then quit. */
    method TrayQuit()
      requires Valid()
      modifies this
      ensures Valid()
      ensures isQuitting && !hasWindow && !visible && !focused
      ensures viewBounds == old(viewBounds)
      ensures backEntries == old(backEntries) && forwardEntries == old(forwardEntries)
    {
      isQuitting := true;
      AppQuit();
    }

    /** `mainWindow?.show(); mainWindow?.focus()` */
    method ShowAndFocus()
      requires Valid()
      modifies this`visible, this`focused
      ensures Valid()
      ensures hasWindow ==> visible && focused
      ensures !hasWindow ==> visible == old(visible) && focused == old(focused)
    {
      if hasWindow {
        visible, focused := true, true;
      }
    }

    /** A tray click: focus a visible window, else show and focus it. Either
        way the window ends up shown and focused. */
    method TrayClick()
      requires Valid()
      modifies this`visible, this`focused
      ensures Valid()
      ensures hasWindow ==> visible && focused
      ensures !hasWindow ==> visible == old(visible) && focused == old(focused)
    {
      if hasWindow && visible {
        focused := true;
      } else {
        ShowAndFocus();
      }
    }

    /** The tray menu's Show item. */
    method TrayShow()
      requires Valid()
      modifies this`visible, this`focused
      ensures Valid()
      ensures hasWindow ==> visible && focused
      ensures !hasWindow ==> visible == old(visible) && focused == old(focused)
    {
      ShowAndFocus();
    }

    /** The global shortcut: hide a window that is shown and focused, else
        bring it up and focus it. */
    method ToggleShortcut()
      requires Valid()
      modifies this`visible, this`focused
      ensures Valid()
      ensures old(visible && focused) ==> !visible && !focused
      ensures !old(visible && focused) && hasWindow ==> visible && focused
      ensures !hasWindow ==> visible == old(visible) && focused == old(focused)
    {
      if hasWindow && visible && focused {
        visible, focused := false, false;
      } else {
        ShowAndFocus();
      }
    }

    /** `activate`: show and focus the window, or create one if there is none. */
    method Activate()
      requires Valid()
      modifies this
      ensures Valid()
      ensures old(hasWindow) ==> visible && focused && maximized == old(maximized)
      ensures old(hasWindow) ==> backEntries == old(backEntries) && forwardEntries == old(forwardEntries)
      ensures !old(hasWindow) ==> hasWindow && !visible && !maximized && backEntries == 0 && forwardEntries == 0
      ensures hasWindow && isQuitting == old(isQuitting) && viewBounds == old(viewBounds)
    {
      if hasWindow {
        ShowAndFocus();
      } else {
        CreateWindow();
      }
    }

    /** `window:maximize`: toggle between maximized and restored. */
    method ToggleMaximize()
      requires Valid()
      modifies this`maximized
      ensures Valid()
      ensures hasWindow ==> maximized == !old(maximized)
      ensures !hasWindow ==> maximized == old(maximized)
    {
      if hasWindow {
        maximized := !maximized;
      }
    }

    /** A page navigation inside the view: the current page joins the back
        history and the forward history is dropped. */
    method Navigate()
      requires Valid()
      modifies this`backEntries, this`forwardEntries
      ensures Valid()
      ensures hasWindow ==> backEntries == old(backEntries) + 1 && forwardEntries == 0
      ensures !hasWindow ==> backEntries == old(backEntries) && forwardEntries == old(forwardEntries)
    {
      if hasWindow {
        backEntries, forwardEntries := backEntries + 1, 0;
      }
    }

    /** `view:go-back`: only when the view can go back. */
    method GoBack()
      requires Valid()
      modifies this`backEntries, this`forwardEntries
      ensures Valid()
      ensures hasWindow && old(backEntries) > 0 ==>
                backEntries == old(backEntries) - 1 && forwardEntries == old(forwardEntries) + 1
      ensures !(hasWindow && old(backEntries) > 0) ==>
                backEntries == old(backEntries) && forwardEntries == old(forwardEntries)
    {
      if hasWindow && backEntries > 0 {
        backEntries, forwardEntries := backEntries - 1, forwardEntries + 1;
      }
    }

    /** `view:go-forward`: only when the view can go forward. */
    method GoForward()
      requires Valid()
      modifies this`backEntries, this`forwardEntries
      ensures Valid()
      ensures hasWindow && old(forwardEntries) > 0 ==>
                backEntries == old(backEntries) + 1 && forwardEntries == old(forwardEntries) - 1
      ensures !(hasWindow && old(forwardEntries) > 0) ==>
                backEntries == old(backEntries) && forwardEntries == old(forwardEntries)
    {
      if hasWindow && forwardEntries > 0 {
        backEntries, forwardEntries := backEntries + 1, forwardEntries - 1;
      }
    }
  }
}
