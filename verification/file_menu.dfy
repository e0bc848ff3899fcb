/**
 * The File menu of the application (file_options_map in
 * apps/motionscope/main.py): an ordered dict from option keys to menu
 * items, whose key order decides what a click on the n-th entry does.
 */
module FileMenu {
  import opened Optional
  import opened OrderedDict
  import opened Ui

  type Menu = seq<Entry<MenuItem>>

  /** The menu as the application creates it: Open, Save and Close start disabled. */
  const INITIAL_MENU: Menu := [
    Entry("open", MenuItem(Action("Open..."), true)),
    Entry("save", MenuItem(Action("Save"), true)),
    Entry("save-as", MenuItem(Action("Save as..."), false)),
    Entry("close", MenuItem(Action("Close"), true))]

  /** The initial menu keeps the invariant, with no project header and every action disabled except Save as. */
  lemma InitialMenuValid()
    ensures MenuValid(INITIAL_MENU)
    ensures Lookup(INITIAL_MENU, "header") == None
    ensures Disabled(INITIAL_MENU, "open") && Disabled(INITIAL_MENU, "save") && Disabled(INITIAL_MENU, "close")
    ensures Enabled(INITIAL_MENU, "save-as")
  {
  }

  /** What the application keeps true of its menu: a dict holding the four actions, header and divider together. */
  predicate MenuValid(m: Menu)
  {
    && Distinct(m)
    && Lookup(m, "open").Some? && Lookup(m, "save").Some? && Lookup(m, "close").Some?
    && (Lookup(m, "header").Some? <==> Lookup(m, "divider").Some?)
  }

  predicate Enabled(m: Menu, k: string)
  {
    Lookup(m, k).Some? && !Lookup(m, k).value.disabled
  }

  predicate Disabled(m: Menu, k: string)
  {
    Lookup(m, k).Some? && Lookup(m, k).value.disabled
  }

  /** `m[k].disabled = b` */
  function SetDisabled(m: Menu, k: string, b: bool): (r: Menu)
    ensures |r| == |m|
    ensures forall i :: 0 <= i < |m| ==> r[i].key == m[i].key
  {
    if m == [] then []
    else [if m[0].key == k then Entry(k, m[0].value.(disabled := b)) else m[0]] + SetDisabled(m[1..], k, b)
  }

  /** Setting one entry's flag changes that entry's flag and nothing else. */
  lemma {:induction false} SetDisabledLookup(m: Menu, k: string, b: bool, other: string)
    ensures Lookup(SetDisabled(m, k, b), other) ==
      if other == k && Lookup(m, k).Some? then Some(Lookup(m, k).value.(disabled := b)) else Lookup(m, other)
    decreases |m|
  {
    if m != [] {
      SetDisabledLookup(m[1..], k, b, other);
    }
  }

  /** The try block of set_project and reset: `del m['header']` then `del m['divider']`, a KeyError ending it. */
  function WithoutHeader(m: Menu): Menu
  {
    match Delete(m, "header")
    case None => m
    case Some(m1) =>
      match Delete(m1, "divider")
      case None => m1
      case Some(m2) => m2
  }

  /** On a valid menu, the header and the divider are both gone and every other entry is as it was. */
  lemma WithoutHeaderLookup(m: Menu, other: string)
    requires MenuValid(m)
    ensures Distinct(WithoutHeader(m))
    ensures Lookup(WithoutHeader(m), "header") == None && Lookup(WithoutHeader(m), "divider") == None
    ensures other != "header" && other != "divider" ==> Lookup(WithoutHeader(m), other) == Lookup(m, other)
    ensures WithoutHeader(m) == Remove(Remove(m, "header"), "divider")
  {
    RemoveDistinct(m, "header");
    RemoveDistinct(Remove(m, "header"), "divider");
    LookupRemove(m, "header", "divider");
    LookupRemove(Remove(m, "header"), "divider", "header");
    if other != "header" && other != "divider" {
      LookupRemove(m, "header", other);
      LookupRemove(Remove(m, "header"), "divider", other);
    }
    if Lookup(m, "header") == None {
      RemoveAbsent(m, "header");
      RemoveAbsent(m, "divider");
    }
  }

  /** The header naming the open project and the divider under it. */
  function ProjectHeader(name: string): Menu
  {
    [Entry("header", MenuItem(Header(name), false)), Entry("divider", MenuItem(Divider, false))]
  }

  /** The entries below the header once set_project has run: Save and Close enabled. */
  function OpenBody(m: Menu): Menu
  {
    SetDisabled(SetDisabled(WithoutHeader(m), "save", false), "close", false)
  }

  /** The menu once reset has run: no header, Save and Close disabled. */
  function ClosedMenu(m: Menu): Menu
  {
    SetDisabled(SetDisabled(WithoutHeader(m), "save", true), "close", true)
  }

  lemma {:induction false} SetDisabledDistinct(m: Menu, k: string, b: bool)
    requires Distinct(m)
    ensures Distinct(SetDisabled(m, k, b))
  {
  }

  /** Setting a flag keeps the menu valid and sets that entry's flag. */
  lemma SetDisabledValid(m: Menu, k: string, b: bool)
    requires MenuValid(m)
    ensures MenuValid(SetDisabled(m, k, b))
    ensures Lookup(m, k).Some? ==> Lookup(SetDisabled(m, k, b), k) == Some(Lookup(m, k).value.(disabled := b))
  {
    SetDisabledDistinct(m, k, b);
    SetDisabledLookup(m, k, b, k);
    SetDisabledLookup(m, k, b, "open");
    SetDisabledLookup(m, k, b, "save");
    SetDisabledLookup(m, k, b, "close");
    SetDisabledLookup(m, k, b, "header");
    SetDisabledLookup(m, k, b, "divider");
  }

  /** Setting a flag keeps the key order. */
  lemma SetDisabledKeys(m: Menu, k: string, b: bool)
    ensures Keys(SetDisabled(m, k, b)) == Keys(m)
  {
  }

  /**
   * The menu at start-up: load_update sets Open's flag, then reset closes
   * the (header-less) menu. Open's flag survives, Save and Close end
   * disabled, and the invariant holds.
   */
  lemma LoadThenClose(m: Menu, none: bool)
    requires MenuValid(m)
    ensures var r := ClosedMenu(SetDisabled(m, "open", none));
      && MenuValid(r)
      && Lookup(r, "open").Some?
      && (Disabled(r, "open") <==> none)
      && Disabled(r, "save") && Disabled(r, "close")
  {
    var loaded := SetDisabled(m, "open", none);
    SetDisabledValid(m, "open", none);
    ClosedMenuLookup(loaded, "open");
  }

  /** Below the header, after set_project: no header or divider, Save and Close enabled, the rest as before. */
  lemma OpenBodyLookup(m: Menu, other: string)
    requires MenuValid(m)
    ensures Distinct(OpenBody(m))
    ensures Keys(OpenBody(m)) == Keys(Remove(Remove(m, "header"), "divider"))
    ensures Lookup(OpenBody(m), "header") == None && Lookup(OpenBody(m), "divider") == None
    ensures Enabled(OpenBody(m), "save") && Enabled(OpenBody(m), "close") && Lookup(OpenBody(m), "open").Some?
    ensures other !in {"header", "divider", "save", "close"} ==> Lookup(OpenBody(m), other) == Lookup(m, other)
  {
    var w := WithoutHeader(m);
    var w1 := SetDisabled(w, "save", false);
    WithoutHeaderLookup(m, other);
    WithoutHeaderLookup(m, "save");
    WithoutHeaderLookup(m, "close");
    WithoutHeaderLookup(m, "open");
    SetDisabledDistinct(w, "save", false);
    SetDisabledDistinct(w1, "close", false);
    SetDisabledKeys(w, "save", false);
    SetDisabledKeys(w1, "close", false);
    SetDisabledLookup(w, "save", false, other);
    SetDisabledLookup(w1, "close", false, other);
    SetDisabledLookup(w, "save", false, "save");
    SetDisabledLookup(w1, "close", false, "save");
    SetDisabledLookup(w, "save", false, "close");
    SetDisabledLookup(w1, "close", false, "close");
    SetDisabledLookup(w, "save", false, "open");
    SetDisabledLookup(w1, "close", false, "open");
    SetDisabledLookup(w, "save", false, "header");
    SetDisabledLookup(w1, "close", false, "header");
    SetDisabledLookup(w, "save", false, "divider");
    SetDisabledLookup(w1, "close", false, "divider");
  }

  /** `{header, divider, **body}` with a body holding neither key: the two entries, then the body. */
  lemma PrependHeader(name: string, body: Menu, other: string)
    requires Distinct(body)
    requires Lookup(body, "header") == None && Lookup(body, "divider") == None
    ensures Update(ProjectHeader(name), body) == ProjectHeader(name) + body
    ensures Distinct(ProjectHeader(name) + body)
    ensures Lookup(ProjectHeader(name) + body, "header") == Some(MenuItem(Header(name), false))
    ensures Lookup(ProjectHeader(name) + body, "divider") == Some(MenuItem(Divider, false))
    ensures other != "header" && other != "divider" ==> Lookup(ProjectHeader(name) + body, other) == Lookup(body, other)
  {
    var h := ProjectHeader(name);
    var r := h + body;
    LookupKeys(body, "header");
    LookupKeys(body, "divider");
    assert forall j :: 0 <= j < |body| ==> body[j].key != "header" && body[j].key != "divider" by {
      forall j | 0 <= j < |body| ensures body[j].key != "header" && body[j].key != "divider" {
        assert Keys(body)[j] == body[j].key;
      }
    }
    UpdateDisjoint(h, body);
    assert r[1..][1..] == body;
  }

  /**
   * set_project's menu: `{header, divider, **rest}` is the header and the
   * divider followed by the remaining entries in their old order, each key
   * once, with Save and Close enabled and every other entry unchanged.
   */
  lemma ProjectMenu(m: Menu, name: string, other: string)
    requires MenuValid(m)
    ensures var r := Update(ProjectHeader(name), OpenBody(m));
      && r == ProjectHeader(name) + OpenBody(m)
      && MenuValid(r)
      && Keys(r)[0] == "header" && Keys(r)[1] == "divider"
      && Lookup(r[2..], "header") == None && Lookup(r[2..], "divider") == None
      && Keys(r[2..]) == Keys(Remove(Remove(m, "header"), "divider"))
      && Lookup(r, "header") == Some(MenuItem(Header(name), false))
      && Enabled(r, "save") && Enabled(r, "close")
      && (other !in {"header", "divider", "save", "close"} ==> Lookup(r, other) == Lookup(m, other))
  {
    var body := OpenBody(m);
    OpenBodyLookup(m, other);
    PrependHeader(name, body, other);
    PrependHeader(name, body, "save");
    PrependHeader(name, body, "close");
    PrependHeader(name, body, "open");
    var r := ProjectHeader(name) + body;
    assert r[2..] == body;
  }

  /** After reset: no header or divider, Save and Close disabled, the rest as before, in the same order. */
  lemma ClosedMenuLookup(m: Menu, other: string)
    requires MenuValid(m)
    ensures MenuValid(ClosedMenu(m))
    ensures Lookup(ClosedMenu(m), "header") == None && Lookup(ClosedMenu(m), "divider") == None
    ensures Disabled(ClosedMenu(m), "save") && Disabled(ClosedMenu(m), "close")
    ensures other !in {"header", "divider", "save", "close"} ==> Lookup(ClosedMenu(m), other) == Lookup(m, other)
  {
    var w := WithoutHeader(m);
    var w1 := SetDisabled(w, "save", true);
    WithoutHeaderLookup(m, other);
    WithoutHeaderLookup(m, "save");
    WithoutHeaderLookup(m, "close");
    WithoutHeaderLookup(m, "open");
    SetDisabledDistinct(w, "save", true);
    SetDisabledDistinct(w1, "close", true);
    SetDisabledLookup(w, "save", true, other);
    SetDisabledLookup(w1, "close", true, other);
    SetDisabledLookup(w, "save", true, "save");
    SetDisabledLookup(w1, "close", true, "save");
    SetDisabledLookup(w, "save", true, "close");
    SetDisabledLookup(w1, "close", true, "close");
    SetDisabledLookup(w, "save", true, "open");
    SetDisabledLookup(w1, "close", true, "open");
    SetDisabledLookup(w, "save", true, "header");
    SetDisabledLookup(w1, "close", true, "header");
    SetDisabledLookup(w, "save", true, "divider");
    SetDisabledLookup(w1, "close", true, "divider");
  }

  /** A later flag on the same entry overrides an earlier one. */
  lemma {:induction false} SetDisabledOverride(m: Menu, k: string, b1: bool, b2: bool)
    ensures SetDisabled(SetDisabled(m, k, b1), k, b2) == SetDisabled(m, k, b2)
    decreases |m|
  {
    if m != [] {
      SetDisabledOverride(m[1..], k, b1, b2);
      assert SetDisabled(m, k, b1)[1..] == SetDisabled(m[1..], k, b1);
    }
  }

  /** Flags on different entries can be set in either order. */
  lemma {:induction false} SetDisabledCommute(m: Menu, k1: string, b1: bool, k2: string, b2: bool)
    requires k1 != k2
    ensures SetDisabled(SetDisabled(m, k1, b1), k2, b2) == SetDisabled(SetDisabled(m, k2, b2), k1, b1)
    decreases |m|
  {
    if m != [] {
      SetDisabledCommute(m[1..], k1, b1, k2, b2);
      assert SetDisabled(m, k1, b1)[1..] == SetDisabled(m[1..], k1, b1);
      assert SetDisabled(m, k2, b2)[1..] == SetDisabled(m[1..], k2, b2);
    }
  }

  /** The del chain on a project menu takes off exactly the header and the divider in front. */
  lemma WithoutProjectHeader(name: string, body: Menu)
    requires Lookup(body, "header") == None && Lookup(body, "divider") == None
    ensures WithoutHeader(ProjectHeader(name) + body) == body
  {
    var hd := Entry("header", MenuItem(Header(name), false));
    var dv := Entry("divider", MenuItem(Divider, false));
    assert ProjectHeader(name) + body == [hd] + ([dv] + body);
    RemoveAbsent(body, "header");
    RemoveAbsent(body, "divider");
    RemoveCons(hd, [dv] + body, "header");
    RemoveCons(dv, body, "header");
    RemoveCons(dv, body, "divider");
  }

  /**
   * set_project called again, for any name: the menu body below the
   * header is the same as after the first call, so the new header and
   * divider appear once, in front, and nothing else moves.
   */
  lemma OpenBodyAgain(m: Menu, name: string)
    requires MenuValid(m)
    ensures OpenBody(ProjectHeader(name) + OpenBody(m)) == OpenBody(m)
  {
    var w := WithoutHeader(m);
    OpenBodyLookup(m, "open");
    WithoutProjectHeader(name, OpenBody(m));
    var ws := SetDisabled(w, "save", false);
    SetDisabledCommute(ws, "close", false, "save", false);
    SetDisabledOverride(w, "save", false, false);
    SetDisabledOverride(SetDisabled(ws, "save", false), "close", false, false);
  }

  /** Closing a project after opening it: reset's menu is the one a reset of the original menu gives. */
  lemma CloseAfterOpen(m: Menu, name: string)
    requires MenuValid(m)
    ensures ClosedMenu(ProjectHeader(name) + OpenBody(m)) == ClosedMenu(m)
  {
    var w := WithoutHeader(m);
    OpenBodyLookup(m, "open");
    WithoutProjectHeader(name, OpenBody(m));
    SetDisabledCommute(w, "save", false, "close", false);
    var wc := SetDisabled(w, "close", false);
    SetDisabledOverride(wc, "save", false, true);
    SetDisabledCommute(w, "close", false, "save", true);
    SetDisabledOverride(SetDisabled(w, "save", true), "close", false, true);
  }

  /** After reset the remaining entries keep their order: the menu's keys are the old ones without header and divider. */
  lemma ClosedMenuKeys(m: Menu)
    requires MenuValid(m)
    ensures Keys(ClosedMenu(m)) == Keys(Remove(Remove(m, "header"), "divider"))
  {
    var w := WithoutHeader(m);
    WithoutHeaderLookup(m, "open");
    SetDisabledKeys(w, "save", true);
    SetDisabledKeys(SetDisabled(w, "save", true), "close", true);
  }

  /** What a click on a File-menu entry asks for. */
  datatype FileAction = OpenDialog | SaveProject | SaveAsDialog | CloseProject

  /**
   * The file-menu callback: the clicked index picks a key of the current
   * menu (a negative index counts from the end, as Python's list indexing
   * does; None stands for the IndexError of an index out of range), and
   * every key other than open, save and save-as closes the project.
   */
  function MenuAction(keys: seq<string>, val: int): (r: Option<FileAction>)
    ensures r.Some? <==> -|keys| <= val < |keys|
  {
    if -|keys| <= val < |keys| then
      var ss := keys[if val < 0 then val + |keys| else val];
      Some(if ss == "open" then OpenDialog
           else if ss == "save" then SaveProject
           else if ss == "save-as" then SaveAsDialog
           else CloseProject)
    else None
  }

  /**
   * Opening a project puts the header and the divider in front, so every
   * action entry moves down by two: the index that chose an action before
   * chooses it two places further on.
   */
  lemma MenuActionShift(keys: seq<string>, val: nat)
    requires val < |keys|
    ensures MenuAction(["header", "divider"] + keys, val + 2) == MenuAction(keys, val)
  {
  }

  /**
   * The callback's last branch takes every key but open, save and
   * save-as for close: with a project open, a click on the header or the
   * divider closes the project.
   */
  lemma HeaderClickCloses(keys: seq<string>)
    ensures MenuAction(["header", "divider"] + keys, 0) == Some(CloseProject)
    ensures MenuAction(["header", "divider"] + keys, 1) == Some(CloseProject)
  {
  }

  /** On the menu the application starts with, the four entries are Open, Save, Save as and Close in that order. */
  lemma InitialMenuActions()
    ensures MenuAction(Keys(INITIAL_MENU), 0) == Some(OpenDialog)
    ensures MenuAction(Keys(INITIAL_MENU), 1) == Some(SaveProject)
    ensures MenuAction(Keys(INITIAL_MENU), 2) == Some(SaveAsDialog)
    ensures MenuAction(Keys(INITIAL_MENU), 3) == Some(CloseProject)
    ensures MenuAction(Keys(INITIAL_MENU), 4) == None
  {
    assert Keys(INITIAL_MENU) == ["open", "save", "save-as", "close"];
  }
}
