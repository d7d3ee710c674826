/** The system tray (src-tauri/src/system_tray.rs): the tray manager's state, the global
    manager slot, the tray menu built from the account lists, and the dispatch of menu
    clicks. Tauri's menu, tray and window calls are inputs giving their outcome. */
module SystemTray {
  import opened Wrappers
  import Text

  // ---------------------------------------------------------------- menu layout

  /** One entry of the tray menu: a plain text item added by `MenuBuilder::text`, an
      item built with `MenuItem::with_id`, a submenu or a separator. */
  datatype MenuEntry =
    | Label(id: string, text: string)
    | Item(id: string, text: string)
    | Submenu(title: string, items: seq<MenuEntry>)
    | Separator

  const SwitchPrefix := "switch_account:"

  function SwitchItem(account: string, indent: string): MenuEntry {
    Item(SwitchPrefix + account, indent + account)
  }

  /** One switch item per account, in order. */
  function SwitchItems(accounts: seq<string>, indent: string): seq<MenuEntry>
    decreases |accounts|
  {
    if |accounts| == 0 then []
    else SwitchItems(accounts[..|accounts| - 1], indent) + [SwitchItem(accounts[|accounts| - 1], indent)]
  }

  const WindowControls: seq<MenuEntry> :=
    [Item("show", "显示窗口"), Separator, Item("hide", "隐藏窗口"), Separator, Item("quit", "退出应用")]

  function QuickSwitchSection(recent: seq<string>): seq<MenuEntry> {
    if |recent| == 0 then []
    else [Label("quick_switch_label", "快速切换")] + SwitchItems(recent, "  ") + [Separator]
  }

  function AllAccountsSection(all: seq<string>): seq<MenuEntry> {
    if |all| > 2 then [Submenu("所有账户", SwitchItems(all, "")), Separator] else []
  }

  function AccountSection(recent: seq<string>, all: seq<string>): seq<MenuEntry> {
    if |all| == 0 then []
    else QuickSwitchSection(recent) + AllAccountsSection(all) + [Item("refresh_accounts", "刷新账户列表"), Separator]
  }

  /** The menu `build_tray_menu` builds from the recent accounts and all accounts. */
  function TrayMenuLayout(recent: seq<string>, all: seq<string>): seq<MenuEntry> {
    AccountSection(recent, all) + WindowControls
  }

  /** `get_accounts_sync`: a failed lookup reads as no accounts. */
  function AccountsOrEmpty(lookup: Result<seq<string>, string>): (r: seq<string>)
    ensures lookup.Ok? ==> r == lookup.value
    ensures lookup.Err? ==> r == []
  {
    if lookup.Ok? then lookup.value else []
  }

  /** The loop adding one switch item per account to a builder. */
  method AddSwitchItems(builder: seq<MenuEntry>, accounts: seq<string>, indent: string) returns (b: seq<MenuEntry>)
    ensures b == builder + SwitchItems(accounts, indent)
  {
    b := builder;
    for i := 0 to |accounts|
      invariant b == builder + SwitchItems(accounts[..i], indent)
    {
      assert accounts[..i + 1][..i] == accounts[..i];
      b := b + [Item(SwitchPrefix + accounts[i], indent + accounts[i])];
    }
    assert accounts[..|accounts|] == accounts;
  }

  /** `build_tray_menu`, apart from Tauri's own failures. */
  method BuildTrayMenu(recentLookup: Result<seq<string>, string>, allLookup: Result<seq<string>, string>)
    returns (menu: seq<MenuEntry>)
    ensures menu == TrayMenuLayout(AccountsOrEmpty(recentLookup), AccountsOrEmpty(allLookup))
  {
    var recent := AccountsOrEmpty(recentLookup);
    var all := AccountsOrEmpty(allLookup);
    menu := [];
    if |all| > 0 {
      if |recent| > 0 {
        menu := menu + [Label("quick_switch_label", "快速切换")];
        menu := AddSwitchItems(menu, recent, "  ");
        menu := menu + [Separator];
      }
      assert menu == QuickSwitchSection(recent);
      if |all| > 2 {
        var submenu := AddSwitchItems([], all, "");
        assert submenu == SwitchItems(all, "");
        menu := menu + [Submenu("所有账户", submenu)];
        menu := menu + [Separator];
      }
      assert menu == QuickSwitchSection(recent) + AllAccountsSection(all);
      menu := menu + [Item("refresh_accounts", "刷新账户列表")];
      menu := menu + [Separator];
    }
    assert menu == AccountSection(recent, all);
    menu := menu + WindowControls;
  }

  lemma {:induction false} SwitchItemsShape(accounts: seq<string>, indent: string)
    ensures |SwitchItems(accounts, indent)| == |accounts|
    ensures forall i :: 0 <= i < |accounts| ==> SwitchItems(accounts, indent)[i] == SwitchItem(accounts[i], indent)
    decreases |accounts|
  {
    if |accounts| > 0 {
      SwitchItemsShape(accounts[..|accounts| - 1], indent);
    }
  }

  /** The window controls always close the menu, and the account section appears only
      when there are accounts. */
  lemma MenuEndsWithWindowControls(recent: seq<string>, all: seq<string>)
    ensures var m := TrayMenuLayout(recent, all);
      |m| >= 5 && m[|m| - 5..] == WindowControls
    ensures |all| == 0 ==> TrayMenuLayout(recent, all) == WindowControls
  {
  }

  /** The quick-switch section appears exactly when there are accounts and recent
      accounts. */
  lemma QuickSwitchShownIff(recent: seq<string>, all: seq<string>)
    ensures (|TrayMenuLayout(recent, all)| > 0 && TrayMenuLayout(recent, all)[0] == Label("quick_switch_label", "快速切换"))
      <==> |all| > 0 && |recent| > 0
  {
    var m := TrayMenuLayout(recent, all);
    if |all| == 0 {
      assert m[0] == Item("show", "显示窗口");
    } else if |recent| == 0 {
      if |all| > 2 {
        assert m[0] == Submenu("所有账户", SwitchItems(all, ""));
      } else {
        assert m[0] == Item("refresh_accounts", "刷新账户列表");
      }
    } else {
      assert m[0] == QuickSwitchSection(recent)[0];
    }
  }

  /** The quick-switch section lists the recent accounts, indented, in order. */
  lemma QuickSwitchListsRecent(recent: seq<string>, all: seq<string>)
    requires |all| > 0 && |recent| > 0
    ensures |TrayMenuLayout(recent, all)| > |recent|
    ensures forall i :: 0 <= i < |recent| ==> TrayMenuLayout(recent, all)[1 + i] == SwitchItem(recent[i], "  ")
  {
    SwitchItemsShape(recent, "  ");
    var m := TrayMenuLayout(recent, all);
    var a := AccountSection(recent, all);
    var q := QuickSwitchSection(recent);
    assert |q| == |recent| + 2;
    forall i | 0 <= i < |recent| ensures m[1 + i] == SwitchItem(recent[i], "  ") {
      assert m[1 + i] == a[1 + i];
      assert a[1 + i] == (q + AllAccountsSection(all))[1 + i] == q[1 + i];
      assert q[1 + i] == SwitchItems(recent, "  ")[i];
    }
  }

  /** The number of submenus at the top level of a menu. */
  function SubmenuCount(m: seq<MenuEntry>): nat
    decreases |m|
  {
    if |m| == 0 then 0 else SubmenuCount(m[..|m| - 1]) + (if m[|m| - 1].Submenu? then 1 else 0)
  }

  lemma {:induction false} SubmenuCountConcat(a: seq<MenuEntry>, b: seq<MenuEntry>)
    ensures SubmenuCount(a + b) == SubmenuCount(a) + SubmenuCount(b)
    decreases |b|
  {
    if |b| > 0 {
      assert (a + b)[..|a + b| - 1] == a + b[..|b| - 1];
      SubmenuCountConcat(a, b[..|b| - 1]);
    } else {
      assert a + b == a;
    }
  }

  lemma {:induction false} SubmenuFree(m: seq<MenuEntry>)
    requires forall i :: 0 <= i < |m| ==> !m[i].Submenu?
    ensures SubmenuCount(m) == 0
    decreases |m|
  {
    if |m| > 0 {
      SubmenuFree(m[..|m| - 1]);
    }
  }

  lemma {:induction false} SwitchItemsAreItems(accounts: seq<string>, indent: string)
    ensures forall e :: e in SwitchItems(accounts, indent) ==>
      e.Item? && exists i :: 0 <= i < |accounts| && e == SwitchItem(accounts[i], indent)
    decreases |accounts|
  {
    if |accounts| > 0 {
      var init := accounts[..|accounts| - 1];
      SwitchItemsAreItems(init, indent);
      forall e | e in SwitchItems(accounts, indent)
        ensures e.Item? && exists i :: 0 <= i < |accounts| && e == SwitchItem(accounts[i], indent)
      {
        if e in SwitchItems(init, indent) {
          var i :| 0 <= i < |init| && e == SwitchItem(init[i], indent);
          assert accounts[i] == init[i];
        } else {
          assert e == SwitchItem(accounts[|accounts| - 1], indent);
        }
      }
    }
  }

  lemma QuickSwitchHasNoSubmenu(recent: seq<string>)
    ensures SubmenuCount(QuickSwitchSection(recent)) == 0
  {
    var q := QuickSwitchSection(recent);
    SwitchItemsShape(recent, "  ");
    forall i | 0 <= i < |q| ensures !q[i].Submenu? {
      if 0 < i < |q| - 1 {
        assert q[i] == SwitchItems(recent, "  ")[i - 1];
      }
    }
    SubmenuFree(q);
  }

  lemma AllAccountsSectionCount(all: seq<string>)
    ensures SubmenuCount(AllAccountsSection(all)) == (if |all| > 2 then 1 else 0)
  {
    var sect := AllAccountsSection(all);
    if |all| > 2 {
      assert sect[..1][..0] == [];
      assert SubmenuCount(sect[..1]) == 1;
      assert sect[..|sect| - 1] == sect[..1];
    }
  }

  /** The "所有账户" submenu appears exactly when there are more than two accounts (and
      then once), holding one switch item per account. */
  lemma AllAccountsSubmenuIff(recent: seq<string>, all: seq<string>)
    ensures SubmenuCount(TrayMenuLayout(recent, all)) == (if |all| > 2 then 1 else 0)
  {
    var q := QuickSwitchSection(recent);
    var sect := AllAccountsSection(all);
    var tail: seq<MenuEntry> := [Item("refresh_accounts", "刷新账户列表"), Separator];
    SubmenuFree(WindowControls);
    SubmenuFree(tail);
    QuickSwitchHasNoSubmenu(recent);
    AllAccountsSectionCount(all);
    if |all| > 0 {
      var m := q + sect + tail + WindowControls;
      assert TrayMenuLayout(recent, all) == m;
      SubmenuCountConcat(q, sect);
      SubmenuCountConcat(q + sect, tail);
      SubmenuCountConcat(q + sect + tail, WindowControls);
    } else {
      assert TrayMenuLayout(recent, all) == WindowControls;
    }
  }

  /** With more than two accounts the submenu follows the quick-switch section and
      lists every account, in order, unindented. */
  lemma AllAccountsSubmenuContents(recent: seq<string>, all: seq<string>)
    requires |all| > 2
    ensures var m := TrayMenuLayout(recent, all); var k := |QuickSwitchSection(recent)|;
      k < |m| && m[k] == Submenu("所有账户", SwitchItems(all, ""))
    ensures |SwitchItems(all, "")| == |all|
      && forall i :: 0 <= i < |all| ==> SwitchItems(all, "")[i] == Item(SwitchPrefix + all[i], all[i])
  {
    SwitchItemsShape(all, "");
    var m := TrayMenuLayout(recent, all);
    var a := AccountSection(recent, all);
    var q := QuickSwitchSection(recent);
    var k := |q|;
    assert m[k] == a[k];
    assert a[k] == (q + AllAccountsSection(all))[k] == AllAccountsSection(all)[0];
  }

  // ---------------------------------------------------------------- dispatch

  /** What a click on a menu id does. */
  datatype MenuCommand = ShowWindow | HideWindow | RefreshAccounts | QuitApp | SwitchAccount(account: string) | UnknownItem(id: string)

  /** `handle_switch_account`: the account named by a switch id. */
  function SwitchAccountName(menuId: string): (r: Option<string>)
    ensures r.Some? <==> Text.IsPrefix(SwitchPrefix, menuId)
    ensures r.Some? ==> menuId == SwitchPrefix + r.value
  {
    Text.StripPrefix(SwitchPrefix, menuId)
  }

  /** None of the fixed ids starts with the switch prefix. */
  lemma FixedIdsAreNotSwitchIds()
    ensures !Text.IsPrefix(SwitchPrefix, "show") && !Text.IsPrefix(SwitchPrefix, "hide") && !Text.IsPrefix(SwitchPrefix, "quit")
    ensures !Text.IsPrefix(SwitchPrefix, "refresh_accounts") && !Text.IsPrefix(SwitchPrefix, "quick_switch_label")
  {
    assert "refresh_accounts"[..|SwitchPrefix|][0] != SwitchPrefix[0];
    assert "quick_switch_label"[..|SwitchPrefix|][0] != SwitchPrefix[0];
  }

  /** `handle_menu_event`. */
  function HandleMenuEvent(id: string): (r: MenuCommand)
    ensures r == ShowWindow <==> id == "show"
    ensures r == HideWindow <==> id == "hide"
    ensures r == RefreshAccounts <==> id == "refresh_accounts"
    ensures r == QuitApp <==> id == "quit"
    ensures r.SwitchAccount? <==> Text.IsPrefix(SwitchPrefix, id)
    ensures r.SwitchAccount? ==> id == SwitchPrefix + r.account
    ensures r.UnknownItem? ==> r.id == id
  {
    FixedIdsAreNotSwitchIds();
    if id == "show" then ShowWindow
    else if id == "hide" then HideWindow
    else if id == "refresh_accounts" then RefreshAccounts
    else if id == "quit" then QuitApp
    else
      FixedIdsAreNotSwitchIds();
      match SwitchAccountName(id)
      case Some(a) => SwitchAccount(a)
      case None => UnknownItem(id)
  }

  /** A switch id built for an account dispatches back to that account. */
  lemma SwitchIdRoundTrip(account: string)
    ensures HandleMenuEvent(SwitchPrefix + account) == SwitchAccount(account)
  {
    assert Text.IsPrefix(SwitchPrefix, SwitchPrefix + account);
    assert (SwitchPrefix + account)[|SwitchPrefix|..] == account;
  }

  /** Every clickable item the menu holds, the submenu's included, dispatches to its
      action: switch items to the account they were built for, taken from the account
      lists; the label is the one entry that dispatches to nothing. */
  lemma MenuItemsDispatch(recent: seq<string>, all: seq<string>)
    ensures forall e :: e in TrayMenuLayout(recent, all) && e.Item? ==> !HandleMenuEvent(e.id).UnknownItem?
    ensures forall e :: e in TrayMenuLayout(recent, all) && e.Item? && HandleMenuEvent(e.id).SwitchAccount? ==>
      HandleMenuEvent(e.id).account in recent
    ensures forall e :: e in AllAccountsSection(all) && e.Submenu? ==>
      forall s :: s in e.items ==> s.Item? && HandleMenuEvent(s.id).SwitchAccount? && HandleMenuEvent(s.id).account in all
    ensures HandleMenuEvent("quick_switch_label") == UnknownItem("quick_switch_label")
  {
    FixedIdsAreNotSwitchIds();
    SwitchItemsDispatch(recent, "  ");
    SwitchItemsDispatch(all, "");
    var m := TrayMenuLayout(recent, all);
    forall e | e in m && e.Item?
      ensures !HandleMenuEvent(e.id).UnknownItem? && (HandleMenuEvent(e.id).SwitchAccount? ==> HandleMenuEvent(e.id).account in recent)
    {
      if e !in SwitchItems(recent, "  ") {
        assert e in WindowControls || e == Item("refresh_accounts", "刷新账户列表");
      }
    }
  }

  /** Switch items dispatch back to the accounts they were built from. */
  lemma SwitchItemsDispatch(accounts: seq<string>, indent: string)
    ensures forall e :: e in SwitchItems(accounts, indent) ==>
      e.Item? && HandleMenuEvent(e.id).SwitchAccount? && HandleMenuEvent(e.id).account in accounts
  {
    SwitchItemsAreItems(accounts, indent);
    forall e | e in SwitchItems(accounts, indent)
      ensures e.Item? && HandleMenuEvent(e.id).SwitchAccount? && HandleMenuEvent(e.id).account in accounts
    {
      var i :| 0 <= i < |accounts| && e == SwitchItem(accounts[i], indent);
      SwitchIdRoundTrip(accounts[i]);
    }
  }

  // ---------------------------------------------------------------- manager

  /** An `AppHandle`, by identity. */
  datatype AppHandle = AppHandle(id: nat)

  /** A tray icon and the menu attached to it. */
  datatype TrayIcon = TrayIcon(menu: seq<MenuEntry>)

  /** What asking the app for its "main" window and calling a window operation gives:
      no window, or the operation's result. */
  datatype WindowCall = NoMainWindow | WindowResult(failure: Option<string>)

  /** `SystemTrayManager`. */
  class SystemTrayManager {
    var isEnabled: bool
    var appHandle: Option<AppHandle>
    var trayIcon: Option<TrayIcon>
    var isMinimizing: bool // re-entrancy guard of `minimize_to_tray`

    /** `new`: disabled, no app handle, no tray icon, not minimising. */
    constructor ()
      ensures !isEnabled && appHandle == None && trayIcon == None && !isMinimizing
    {
      isEnabled := false;
      appHandle := None;
      trayIcon := None;
      isMinimizing := false;
    }

    /** `is_enabled`. */
    function IsEnabled(): bool
      reads this
    {
      isEnabled
    }

    /** `enable`: sets the flag and touches nothing else. */
    method Enable() returns (r: Result<(), string>)
      modifies this
      ensures r.Ok? && IsEnabled()
      ensures appHandle == old(appHandle) && trayIcon == old(trayIcon) && isMinimizing == old(isMinimizing)
    {
      isEnabled := true;
      r := Ok(());
    }

    /** `disable`: clears the flag and drops the tray icon. */
    method Disable() returns (r: Result<(), string>)
      modifies this
      ensures r.Ok? && !IsEnabled() && trayIcon == None
      ensures appHandle == old(appHandle) && isMinimizing == old(isMinimizing)
    {
      isEnabled := false;
      trayIcon := None;
      r := Ok(());
    }

    /** `minimize_to_tray`: a call made while minimising returns Ok and changes
        nothing; when disabled it fails before taking the guard; otherwise it hides the
        main window, if any, and releases the guard on every path. */
    method MinimizeToTray(hiding: WindowCall) returns (r: Result<(), string>)
      modifies this
      ensures old(isMinimizing) ==> r.Ok? && isMinimizing
      ensures !old(isMinimizing) && !old(isEnabled) ==> r == Err("系统托盘功能未启用")
      ensures !old(isMinimizing) && old(isEnabled) ==>
        r == (if old(appHandle).Some? && hiding.WindowResult? && hiding.failure.Some?
              then Err("隐藏窗口失败: " + hiding.failure.value) else Ok(()))
      ensures isMinimizing == old(isMinimizing)
      ensures isEnabled == old(isEnabled) && appHandle == old(appHandle) && trayIcon == old(trayIcon)
    {
      if isMinimizing {
        return Ok(());
      }
      if !isEnabled {
        return Err("系统托盘功能未启用");
      }
      isMinimizing := true;
      if appHandle.Some? {
        if hiding.WindowResult? {
          if hiding.failure.Some? {
            isMinimizing := false;
            return Err("隐藏窗口失败: " + hiding.failure.value);
          }
        }
      }
      isMinimizing := false;
      r := Ok(());
    }

    /** `restore_from_tray`: shows and focuses the main window; the first failure is
        returned. The manager's fields do not change. */
    method RestoreFromTray(showing: WindowCall, focus: Option<string>) returns (r: Result<(), string>)
      ensures appHandle.None? || showing.NoMainWindow? ==> r.Ok?
      ensures appHandle.Some? && showing.WindowResult? ==>
        r == (if showing.failure.Some? then Err(showing.failure.value) else if focus.Some? then Err(focus.value) else Ok(()))
    {
      if appHandle.Some? {
        if showing.WindowResult? {
          if showing.failure.Some? {
            return Err(showing.failure.value);
          }
          if focus.Some? {
            return Err(focus.value);
          }
        }
      }
      r := Ok(());
    }
  }

  /** The process-wide `SYSTEM_TRAY_MANAGER` cell: set at most once. */
  class TrayRegistry {
    var global: SystemTrayManager?

    constructor ()
      ensures global == null
    {
      global := null;
    }

    /** `get_global`. */
    function GetGlobal(): SystemTrayManager?
      reads this
    {
      global
    }

    /** `initialize_global`. Once a manager exists this is Ok and changes nothing. Else a
        new manager is made holding the app handle; a failure building the menu
        (`menuApi`) is returned with nothing stored, and a failure building the tray
        icon (`trayBuild`) leaves the manager without an icon. */
    method InitializeGlobal(app: AppHandle, recentLookup: Result<seq<string>, string>, allLookup: Result<seq<string>, string>,
                            menuApi: Option<string>, trayBuild: Option<string>)
      returns (r: Result<(), string>)
      modifies this
      ensures old(global) != null ==> r.Ok? && global == old(global)
      ensures old(global) == null && menuApi.Some? ==> r == Err(menuApi.value) && global == null
      ensures old(global) == null && menuApi.None? ==>
        r.Ok? && global != null && fresh(global)
        && global.appHandle == Some(app) && !global.isEnabled && !global.isMinimizing
        && global.trayIcon == (if trayBuild.None? then Some(TrayIcon(TrayMenuLayout(AccountsOrEmpty(recentLookup), AccountsOrEmpty(allLookup)))) else None)
    {
      if global != null {
        return Ok(());
      }
      var manager := new SystemTrayManager();
      manager.appHandle := Some(app);
      var menu := BuildTrayMenu(recentLookup, allLookup);
      if menuApi.Some? {
        return Err(menuApi.value);
      }
      if trayBuild.None? {
        manager.trayIcon := Some(TrayIcon(menu));
      }
      global := manager;
      r := Ok(());
    }

    /** `rebuild_menu`: with a manager holding a tray icon, the icon's menu is replaced
        by a freshly built one unless building (`menuApi`) or attaching it (`setMenu`)
        fails; nothing else changes. */
    method RebuildMenu(recentLookup: Result<seq<string>, string>, allLookup: Result<seq<string>, string>,
                       menuApi: Option<string>, setMenu: Option<string>)
      returns (r: Result<(), string>)
      modifies global
      ensures global == null || old(global.trayIcon).None? ==> r.Ok? && (global != null ==> global.trayIcon == old(global.trayIcon))
      ensures global != null && old(global.trayIcon).Some? ==>
        r == (if menuApi.Some? then Err(menuApi.value) else if setMenu.Some? then Err(setMenu.value) else Ok(()))
        && global.trayIcon == (if r.Ok? then Some(TrayIcon(TrayMenuLayout(AccountsOrEmpty(recentLookup), AccountsOrEmpty(allLookup)))) else old(global.trayIcon))
      ensures global != null ==>
        global.isEnabled == old(global.isEnabled) && global.appHandle == old(global.appHandle) && global.isMinimizing == old(global.isMinimizing)
    {
      var manager := global;
      if manager != null && manager.trayIcon.Some? {
        var menu := BuildTrayMenu(recentLookup, allLookup);
        if menuApi.Some? {
          return Err(menuApi.value);
        }
        if setMenu.Some? {
          return Err(setMenu.value);
        }
        manager.trayIcon := Some(TrayIcon(menu));
      }
      r := Ok(());
    }
  }
}
