/**
 * The application object (class MotionScope in apps/motionscope/main.py):
 * the project store, the ordered tab list with the focused tab, and the
 * File menu, with the operations that open and close projects, switch
 * tabs and propagate store changes to the tabs.
 */
module App {
  import opened Optional
  import opened Values
  import opened OrderedDict
  import opened Ui
  import opened Streaming
  import opened Tabs
  import opened FileMenu
  import opened SaveLoad
  import Projects

  /** The project store: a dict from well-known and tab-defined keys to values. */
  type Store = map<string, Value>

  /**
   * The outputs of a switch to tab k among n tabs: every tab's panel
   * opened or closed, then every tab's navigation link made active or not.
   */
  function TabView(k: nat, n: nat): seq<Mod>
  {
    seq(n, i requires 0 <= i < n => IsOpen(i, i == k)) + seq(n, i requires 0 <= i < n => Active(i, i == k))
  }

  /** A switch opens exactly one panel and activates exactly one link, both of tab k. */
  lemma TabViewShowsOne(k: nat, n: nat)
    requires k < n
    ensures var m := TabView(k, n);
      && |m| == 2 * n
      && (forall i :: 0 <= i < |m| ==> (m[i].IsOpen? && m[i].value <==> i == k))
      && (forall i :: 0 <= i < |m| ==> (m[i].Active? && m[i].value <==> i == n + k))
      && m[k] == IsOpen(k, true) && m[n + k] == Active(k, true)
      && (forall i :: 0 <= i < |m| ==> m[i].IsOpen? || m[i].Active?)
  {
  }

  /**
   * What reset returns after the switch to the Camera tab: the Analyze
   * and Process tabs disabled and the menu redrawn.
   */
  function ResetOutputs(menu: seq<MenuItem>, n: nat): seq<Mod>
  {
    TabView(CAMERA, n) + [NavDisabled(ANALYZE, true), NavDisabled(PROCESS, true), MenuOptions(menu)]
  }

  /** After reset, Analyze and Process are disabled, no tab is enabled, and only Camera is shown. */
  lemma ResetOutputsDisable(menu: seq<MenuItem>, n: nat)
    requires CAMERA < n
    ensures var out := ResetOutputs(menu, n);
      && NavDisabled(ANALYZE, true) in out && NavDisabled(PROCESS, true) in out
      && (forall m :: m in out && m.NavDisabled? ==> m.value)
      && (forall m :: m in out && m.IsOpen? && m.value ==> m.tab == CAMERA)
      && (forall m :: m in out && m.Active? && m.value ==> m.tab == CAMERA)
  {
    TabViewShowsOne(CAMERA, n);
    var view := TabView(CAMERA, n);
    var out := ResetOutputs(menu, n);
    forall m | m in out && m.IsOpen? && m.value ensures m.tab == CAMERA {
      var i :| 0 <= i < |out| && out[i] == m;
      assert i < |view|;
    }
    forall m | m in out && m.Active? && m.value ensures m.tab == CAMERA {
      var i :| 0 <= i < |out| && out[i] == m;
      assert i < |view|;
    }
  }

  /** The outputs of every tab's own data_update, in tab order, each called with the same changed keys. */
  function Reactions(react: (nat, set<string>) -> seq<Mod>, changed: set<string>, n: nat): seq<Mod>
  {
    if n == 0 then [] else Reactions(react, changed, n - 1) + react(n - 1, changed)
  }

  /** Reading a missing key of the store (a defaultdict of dict) inserts an empty dict. */
  function WithDefault(store: Store, k: string, reads_it: bool): Store
  {
    if reads_it && k !in store then store[k := Dict(map[])] else store
  }

  /** load_update's test: the directory listing holds no project. */
  predicate NoProjects(files: seq<string>)
  {
    Projects.GetProjects(files) == []
  }

  /** data_update gets past its recording test: a changed recording must be a recording handle. */
  predicate UpdateOk(store: Store, changed: set<string>)
  {
    "recording" !in changed || Get(store, "recording").Recording?
  }

  /** data_update switches to the Analyze tab: it gets that far and a changed obj_data is truthy. */
  predicate FocusesAnalyze(store: Store, changed: set<string>)
  {
    UpdateOk(store, changed) && "obj_data" in changed && Truthy(Get(store, "obj_data"))
  }

  /** A recording whose len() exceeds the minimum frame count. */
  predicate LongRecording(store: Store, bgCntFinal: nat)
  {
    "recording" in store && store["recording"].Recording? && store["recording"].frames > bgCntFinal
  }

  /**
   * reset's try block: header, divider, obj_data and project are deleted
   * in that order, and the first missing key raises KeyError, which ends
   * the deletions.
   */
  function ResetChain(menu: Menu, store: Store): (Menu, Store)
  {
    var reached := Delete(menu, "header").Some? && Delete(Remove(menu, "header"), "divider").Some?;
    (WithoutHeader(menu), if reached then DropObjData(store) else store)
  }

  /** The store half of the chain once the menu deletions succeeded: `del obj_data`, then `del project`. */
  function DropObjData(store: Store): Store
  {
    if "obj_data" !in store then store
    else if "project" !in store then store - {"obj_data"}
    else store - {"obj_data"} - {"project"}
  }

  /** With a valid menu the chain reaches the store exactly when the menu had its header. */
  lemma ResetChainReach(menu: Menu, store: Store)
    requires Lookup(menu, "header").Some? <==> Lookup(menu, "divider").Some?
    ensures ResetChain(menu, store).0 == WithoutHeader(menu)
    ensures ResetChain(menu, store).1 == if Lookup(menu, "header").Some? then DropObjData(store) else store
  {
    LookupRemove(menu, "header", "divider");
  }


  /**
   * What the store deletions remove: obj_data always, project only when
   * obj_data was there as well (a project without obj_data keeps its
   * name), and nothing else.
   */
  lemma DropObjDataKeys(store: Store)
    ensures var s := DropObjData(store);
      && "obj_data" !in s
      && ("project" in s <==> "project" in store && "obj_data" !in store)
      && (forall k :: k in s ==> k in store && s[k] == store[k])
      && (forall k :: k in store && k != "obj_data" && k != "project" ==> k in s)
  {
  }

  /**
   * The outputs data_update adds after the tabs' own when nothing raised:
   * the redrawn menu and an enabled Process tab for a changed long
   * recording; for a changed obj_data, an enabled Analyze tab and the
   * switch to it when obj_data is truthy, a disabled one otherwise.
   */
  function DataFollowups(changed: set<string>, store: Store, bgCntFinal: nat, menu: seq<MenuItem>, n: nat): seq<Mod>
  {
    (if "recording" in changed && LongRecording(store, bgCntFinal)
     then [MenuOptions(menu), NavDisabled(PROCESS, false)] else [])
    + (if "obj_data" !in changed then []
       else if Truthy(Get(store, "obj_data")) then [NavDisabled(ANALYZE, false)] + TabView(ANALYZE, n)
       else [NavDisabled(ANALYZE, true)])
  }

  /**
   * data_update only ever enables the Process tab, and only for a changed
   * recording longer than the minimum; it enables the Analyze tab exactly
   * when a changed obj_data is truthy and disables it exactly when a
   * changed obj_data is falsy.
   */
  lemma DataFollowupsNav(changed: set<string>, store: Store, bgCntFinal: nat, menu: seq<MenuItem>, n: nat)
    requires ANALYZE < n
    ensures var rest := DataFollowups(changed, store, bgCntFinal, menu, n);
      var objChanged := "obj_data" in changed;
      && (NavDisabled(PROCESS, false) in rest <==> "recording" in changed && LongRecording(store, bgCntFinal))
      && NavDisabled(PROCESS, true) !in rest
      && (NavDisabled(ANALYZE, false) in rest <==> objChanged && Truthy(Get(store, "obj_data")))
      && (NavDisabled(ANALYZE, true) in rest <==> objChanged && !Truthy(Get(store, "obj_data")))
  {
    var view := TabView(ANALYZE, n);
    TabViewShowsOne(ANALYZE, n);
    assert forall m :: m in view ==> !m.NavDisabled?;
  }

  class MotionScope {
    const bgCntFinal: nat
    const tabs: seq<Tab>
    var tab: Tab
    var data: Store
    var fileOptions: Menu
    /** The outputs handed to the application's push_mods, in order. */
    var pushed: seq<Mod>
    /** The focus(...) calls made on the tabs, by tab position, in order. */
    ghost var focusCalls: seq<(nat, bool)>

    /**
     * Camera, Capture, Process and Analyze, each once; the focused tab is
     * one of them and no other tab thinks it has the focus; the menu keeps
     * its invariant.
     */
    ghost predicate Valid()
      reads this, tabs
    {
      && |tabs| == |TAB_NAMES|
      && (forall i :: 0 <= i < |tabs| ==> tabs[i].name == TAB_NAMES[i])
      && (forall i, j :: 0 <= i < j < |tabs| ==> tabs[i] != tabs[j])
      && tab in tabs
      && (forall i :: 0 <= i < |tabs| && tabs[i].focused ==> tabs[i] == tab)
      && MenuValid(fileOptions)
      && "recording" in data
    }

    /** The Camera tab is the focused one and the only tab whose focus flag is set. */
    predicate OnCamera()
      reads this`tab, tabs
    {
      CAMERA < |tabs| && tab == tabs[CAMERA] && forall i :: 0 <= i < |tabs| ==> tabs[i].focused == (i == CAMERA)
    }

    /** The position of the focused tab. */
    ghost function TabIndex(): (k: nat)
      reads this, tabs
      requires Valid()
      ensures k < |tabs| && tabs[k] == tab
    {
      var k :| 0 <= k < |tabs| && tabs[k] == tab; k
    }

    /**
     * The application's start: the four tabs, Camera focused, the store
     * and the initial menu; then load_update and reset, whose outputs are
     * pushed together. The store starts as `{recording: None}` rather than
     * empty: reset sets that key before anything reads the store, so the
     * state after start-up is the same, and the invariant that "recording"
     * is present holds from the first step.
     */
    constructor (bgCntFinal: nat, files: seq<string>)
      ensures Valid()
      ensures this.bgCntFinal == bgCntFinal
      ensures OnCamera()
      ensures data == map["recording" := Null]
      ensures Disabled(fileOptions, "save") && Disabled(fileOptions, "close")
      ensures Disabled(fileOptions, "open") <==> NoProjects(files)
      ensures fileOptions == ClosedMenu(SetDisabled(INITIAL_MENU, "open", NoProjects(files)))
      ensures pushed == StartPushes(SetDisabled(INITIAL_MENU, "open", NoProjects(files)), fileOptions, |tabs|)
      ensures focusCalls == [(CAMERA, false), (CAMERA, true)]
    {
      this.bgCntFinal := bgCntFinal;
      var ts := MakeTabs();
      tabs := ts;
      tab := ts[CAMERA];
      data := map["recording" := Null];
      fileOptions := INITIAL_MENU;
      pushed := [];
      focusCalls := [];
      new;
      InitialMenuValid();
      assert Valid();
      assert TabIndex() == CAMERA;
      ghost var store0 := data;
      ghost var menu0 := fileOptions;
      assert menu0 == INITIAL_MENU;
      Start(files);
      assert fileOptions == ClosedMenu(SetDisabled(menu0, "open", NoProjects(files)));
      StoreSetSame(store0, "recording", Null);
    }

    /** Setting a key to the value it already holds changes nothing. */
    static lemma StoreSetSame(store: Store, k: string, v: Value)
      requires k in store && store[k] == v
      ensures store[k := v] == store
    {
    }

    /** The four tabs, in TAB_NAMES order, none of them focused yet. */
    static method MakeTabs() returns (ts: seq<Tab>)
      ensures |ts| == |TAB_NAMES|
      ensures forall i :: 0 <= i < |ts| ==> fresh(ts[i]) && ts[i].name == TAB_NAMES[i] && !ts[i].focused
      ensures forall i, j :: 0 <= i < j < |ts| ==> ts[i] != ts[j]
    {
      var camera := new Tab("Camera");
      var capture := new Tab("Capture");
      var process := new Tab("Process");
      var analyze := new Tab("Analyze");
      ts := [camera, capture, process, analyze];
    }

    /**
     * What the start-up pushes: reset's perspective reset first, then
     * load_update's redraw of the menu it produced, then reset's outputs
     * for the final menu and n tabs.
     */
    static function StartPushes(loaded: Menu, final: Menu, n: nat): seq<Mod>
    {
      [PerspectiveReset, PerspectiveEnable(false)] + ([MenuOptions(Items(loaded))] + ResetOutputs(Items(final), n))
    }

    /** The start-up push: load_update's outputs followed by reset's. */
    method Start(files: seq<string>)
      requires Valid() && Lookup(fileOptions, "header") == None
      modifies this, tabs
      ensures Valid()
      ensures OnCamera()
      ensures focusCalls == old(focusCalls) + [(old(TabIndex()), false), (CAMERA, true)]
      ensures data == old(data)["recording" := Null]
      ensures Disabled(fileOptions, "save") && Disabled(fileOptions, "close")
      ensures Lookup(fileOptions, "open").Some?
      ensures Disabled(fileOptions, "open") <==> NoProjects(files)
      ensures fileOptions == ClosedMenu(SetDisabled(old(fileOptions), "open", NoProjects(files)))
      ensures pushed == old(pushed) + StartPushes(SetDisabled(old(fileOptions), "open", NoProjects(files)), fileOptions, |tabs|)
    {
      ghost var none := NoProjects(files);
      ghost var before := pushed;
      var loadMods := LoadUpdate(files);
      ghost var afterLoad := fileOptions;
      var resetMods := Reset();
      LoadThenClose(old(fileOptions), none);
      Push(loadMods + resetMods);
      StartPushesAfter(before, afterLoad, fileOptions, |tabs|);
    }

    /** Reset's own push followed by the batch of load_update's and reset's outputs is the start-up push. */
    static lemma StartPushesAfter(before: seq<Mod>, loaded: Menu, final: Menu, n: nat)
      ensures before + [PerspectiveReset, PerspectiveEnable(false)] + ([MenuOptions(Items(loaded))] + ResetOutputs(Items(final), n))
        == before + StartPushes(loaded, final, n)
    {
    }

    /** Hands a batch of outputs to the UI after those already pushed; nothing else changes. */
    method Push(mods: seq<Mod>)
      requires Valid()
      modifies this`pushed
      ensures Valid()
      ensures pushed == old(pushed) + mods
    {
      pushed := pushed + mods;
    }

    /** load_update: Open is enabled exactly when some project exists; the menu is redrawn. */
    method LoadUpdate(files: seq<string>) returns (mods: seq<Mod>)
      requires Valid()
      modifies this`fileOptions
      ensures Valid()
      ensures fileOptions == SetDisabled(old(fileOptions), "open", NoProjects(files))
      ensures Disabled(fileOptions, "open") <==> NoProjects(files)
      ensures Lookup(fileOptions, "header") == Lookup(old(fileOptions), "header")
      ensures mods == [MenuOptions(Items(fileOptions))]
    {
      var projects := Projects.GetProjects(files);
      var none := projects == [];
      SetDisabledValid(fileOptions, "open", none);
      SetDisabledLookup(fileOptions, "open", none, "header");
      fileOptions := SetDisabled(fileOptions, "open", none);
      mods := [MenuOptions(Items(fileOptions))];
    }

    /**
     * The callback get_tab_func(tabs[k]) builds: under the lock the
     * focused tab is told it loses the focus, the reference moves to
     * tabs[k], and tabs[k] is told it gains it.
     */
    method SwitchTab(k: nat) returns (mods: seq<Mod>)
      requires Valid() && k < |tabs|
      modifies this, tabs
      ensures Valid()
      ensures tab == tabs[k]
      ensures forall i :: 0 <= i < |tabs| ==> tabs[i].focused == (i == k)
      ensures mods == TabView(k, |tabs|)
      ensures focusCalls == old(focusCalls) + [(old(TabIndex()), false), (k, true)]
      ensures data == old(data) && fileOptions == old(fileOptions) && pushed == old(pushed)
    {
      mods := TabView(k, |tabs|);
      ghost var from := TabIndex();
      var res := tab.Focus(false);
      focusCalls := focusCalls + [(from, false)];
      mods := mods + res;
      tab := tabs[k];
      res := tab.Focus(true);
      focusCalls := focusCalls + [(k, true)];
      mods := mods + res;
    }

    /** `self.data[k]` on the defaultdict store. */
    method Read(k: string) returns (v: Value)
      requires Valid()
      modifies this`data
      ensures Valid()
      ensures v == if k in old(data) then old(data)[k] else Dict(map[])
      ensures data == old(data)[k := v]
    {
      if k !in data {
        data := data[k := Dict(map[])];
      }
      v := data[k];
    }

    /**
     * data_update: every tab reacts to the same changed keys; then a
     * changed recording longer than bgCntFinal enables the Process tab, and
     * a changed obj_data enables and focuses the Analyze tab when truthy or
     * disables it otherwise. A changed "recording" that is not a recording
     * handle raises (ok false), ending the update.
     */
    method DataUpdate(changed: set<string>, react: (nat, set<string>) -> seq<Mod>)
      returns (mods: seq<Mod>, ok: bool)
      requires Valid()
      modifies this, tabs
      ensures Valid()
      ensures ok <==> UpdateOk(old(data), changed)
      ensures ok ==>
        mods == Reactions(react, changed, |tabs|)
                + DataFollowups(changed, old(data), bgCntFinal, Items(fileOptions), |tabs|)
      ensures data == WithDefault(WithDefault(old(data), "recording", "recording" in changed),
                                  "obj_data", ok && "obj_data" in changed)
      ensures fileOptions == old(fileOptions) && pushed == old(pushed)
      ensures FocusesAnalyze(old(data), changed) ==>
        && tab == tabs[ANALYZE] && (forall i :: 0 <= i < |tabs| ==> tabs[i].focused == (i == ANALYZE))
        && focusCalls == old(focusCalls) + [(old(TabIndex()), false), (ANALYZE, true)]
      ensures !FocusesAnalyze(old(data), changed) ==>
        && tab == old(tab) && focusCalls == old(focusCalls)
        && forall i :: 0 <= i < |tabs| ==> tabs[i].focused == old(tabs[i].focused)
    {
      mods := [];
      for i := 0 to |tabs|
        modifies {}
        invariant mods == Reactions(react, changed, i)
      {
        mods := mods + react(i, changed);
      }
      var own := mods;
      ghost var store := data;
      ghost var menu := Items(fileOptions);
      var recRest: seq<Mod> := [];
      var objRest: seq<Mod> := [];
      ok := true;
      if "recording" in changed {
        var recording := Read("recording");
        if !recording.Recording? {
          ok := false;
          return;
        }
        if recording.frames > bgCntFinal {
          recRest := [MenuOptions(Items(fileOptions)), NavDisabled(PROCESS, false)];
        }
      }
      assert recRest == if "recording" in changed && LongRecording(store, bgCntFinal)
        then [MenuOptions(menu), NavDisabled(PROCESS, false)] else [];
      if "obj_data" in changed {
        var objData := Read("obj_data");
        if Truthy(objData) {
          var view := SwitchTab(ANALYZE);
          objRest := [NavDisabled(ANALYZE, false)] + view;
        } else {
          objRest := [NavDisabled(ANALYZE, true)];
        }
      }
      mods := own + (recRest + objRest);
    }

    /**
     * reset's changes to the store and the menu: the recording is dropped,
     * the header, divider, obj_data and project are deleted up to the
     * first missing one, and Save and Close are disabled.
     */
    method ClearProject()
      requires Valid()
      modifies this`data, this`fileOptions
      ensures Valid()
      ensures data == ResetChain(old(fileOptions), old(data)["recording" := Null]).1
      ensures var cleared := old(data)["recording" := Null];
        data == if Lookup(old(fileOptions), "header").Some? then DropObjData(cleared) else cleared
      ensures "recording" in data && data["recording"] == Null
      ensures fileOptions == ClosedMenu(old(fileOptions))
      ensures Disabled(fileOptions, "save") && Disabled(fileOptions, "close")
      ensures Lookup(fileOptions, "header") == None && Lookup(fileOptions, "divider") == None
    {
      data := data["recording" := Null];
      ResetChainReach(fileOptions, data);
      DropObjDataKeys(data);
      ClosedMenuLookup(fileOptions, "open");
      var chain := ResetChain(fileOptions, data);
      data := chain.1;
      fileOptions := SetDisabled(SetDisabled(chain.0, "save", true), "close", true);
    }

    /** reset's first step: every tab is reset and the perspective reset and disabled, pushed at once. */
    method ResetTabs()
      requires Valid()
      modifies this`pushed
      ensures pushed == old(pushed) + [PerspectiveReset, PerspectiveEnable(false)]
    {
      var tabMods: seq<Mod> := [];
      for i := 0 to |tabs|
        modifies {}
        invariant tabMods == []
      {
        var m := tabs[i].Reset();
        tabMods := tabMods + m;
      }
      pushed := pushed + tabMods + [PerspectiveReset, PerspectiveEnable(false)];
    }

    /**
     * reset: the tabs are reset and the perspective reset and disabled
     * (pushed at once), the project is cleared, and the Camera tab takes
     * the focus with Process and Analyze disabled and the menu redrawn.
     */
    method Reset() returns (mods: seq<Mod>)
      requires Valid()
      modifies this, tabs
      ensures Valid()
      ensures data == ResetChain(old(fileOptions), old(data)["recording" := Null]).1
      ensures var cleared := old(data)["recording" := Null];
        data == if Lookup(old(fileOptions), "header").Some? then DropObjData(cleared) else cleared
      ensures "recording" in data && data["recording"] == Null
      ensures fileOptions == ClosedMenu(old(fileOptions))
      ensures Disabled(fileOptions, "save") && Disabled(fileOptions, "close")
      ensures Lookup(fileOptions, "header") == None && Lookup(fileOptions, "divider") == None
      ensures pushed == old(pushed) + [PerspectiveReset, PerspectiveEnable(false)]
      ensures OnCamera()
      ensures focusCalls == old(focusCalls) + [(old(TabIndex()), false), (CAMERA, true)]
      ensures mods == ResetOutputs(Items(fileOptions), |tabs|)
    {
      ResetTabs();
      ClearProject();
      var view := SwitchTab(CAMERA);
      mods := view + [NavDisabled(ANALYZE, true), NavDisabled(PROCESS, true), MenuOptions(Items(fileOptions))];
      assert mods == ResetOutputs(Items(fileOptions), |tabs|);
    }

    /**
     * set_project: the store names the project, the header and divider
     * are (re)placed at the top of the menu, Save and Close are enabled,
     * and the menu is redrawn.
     */
    method SetProject(name: string)
      requires Valid()
      modifies this`data, this`fileOptions, this`pushed
      ensures Valid()
      ensures data == old(data)["project" := Str(name)]
      ensures fileOptions == ProjectHeader(name) + OpenBody(old(fileOptions))
      ensures Keys(fileOptions)[0] == "header" && Keys(fileOptions)[1] == "divider"
      ensures Lookup(fileOptions[2..], "header") == None && Lookup(fileOptions[2..], "divider") == None
      ensures Keys(fileOptions[2..]) == Keys(Remove(Remove(old(fileOptions), "header"), "divider"))
      ensures Enabled(fileOptions, "save") && Enabled(fileOptions, "close")
      ensures pushed == old(pushed) + [MenuOptions(Items(fileOptions))]
      ensures tab == old(tab)
    {
      ProjectMenu(fileOptions, name, "open");
      var menu := Update(ProjectHeader(name), OpenBody(fileOptions));
      assert MenuValid(menu);
      data := data["project" := Str(name)];
      fileOptions := menu;
      pushed := pushed + [MenuOptions(Items(fileOptions))];
    }

    /** The open callback's first half: the load dialog is shown and the application reset. */
    method ShowAndReset()
      requires Valid()
      modifies this, tabs
      ensures Valid()
      ensures data == ResetChain(old(fileOptions), old(data)["recording" := Null]).1
      ensures "recording" in data && data["recording"] == Null
      ensures fileOptions == ClosedMenu(old(fileOptions))
      ensures OnCamera()
      ensures focusCalls == old(focusCalls) + [(old(TabIndex()), false), (CAMERA, true)]
      ensures pushed == old(pushed)
        + [DialogProgress(LoadProgress, 0), DialogOpen(LoadProgress, true), PerspectiveReset, PerspectiveEnable(false)]
        + ResetOutputs(Items(fileOptions), |tabs|)
    {
      ghost var before := pushed;
      pushed := pushed + [DialogProgress(LoadProgress, 0), DialogOpen(LoadProgress, true)];
      var resetMods := Reset();
      assert pushed == before + [DialogProgress(LoadProgress, 0), DialogOpen(LoadProgress, true), PerspectiveReset, PerspectiveEnable(false)];
      pushed := pushed + resetMods;
    }

    /**
     * The open-project callback up to the load: the load dialog is shown,
     * the application is reset and the project set. A project opened this
     * way has its name in the store, no recording, Save and Close enabled,
     * the Camera tab focused, and Process and Analyze disabled.
     */
    method Open(name: string)
      requires Valid()
      modifies this, tabs
      ensures Valid()
      ensures data == ResetChain(old(fileOptions), old(data)["recording" := Null]).1["project" := Str(name)]
      ensures Get(data, "project") == Str(name) && Get(data, "recording") == Null
      ensures fileOptions == ProjectHeader(name) + OpenBody(ClosedMenu(old(fileOptions)))
      ensures Enabled(fileOptions, "save") && Enabled(fileOptions, "close")
      ensures OnCamera()
      ensures focusCalls == old(focusCalls) + [(old(TabIndex()), false), (CAMERA, true)]
      ensures pushed == old(pushed)
        + [DialogProgress(LoadProgress, 0), DialogOpen(LoadProgress, true), PerspectiveReset, PerspectiveEnable(false)]
        + ResetOutputs(Items(ClosedMenu(old(fileOptions))), |tabs|)
        + [MenuOptions(Items(fileOptions))]
    {
      ShowAndReset();
      SetProject(name);
    }

    /**
     * The File-menu callback: the clicked index picks a key of the menu's
     * current order. Open and Save as return the outputs that open their
     * dialogs; close (and any entry that is not open, save or save-as)
     * resets the application and returns reset's outputs; Save and an
     * index out of range return nothing and change nothing here.
     */
    method FileMenuClick(val: int) returns (action: Option<FileAction>, mods: seq<Mod>)
      requires Valid()
      modifies this, tabs
      ensures Valid()
      ensures action == MenuAction(Keys(old(fileOptions)), val)
      ensures action == Some(OpenDialog) ==> mods == [DialogOpen(OpenProjectDialog, true)]
      ensures action == Some(SaveAsDialog) ==> mods == [DialogOpen(SaveAsNameDialog, true)]
      ensures action == None || action == Some(SaveProject) ==> mods == []
      ensures action == Some(CloseProject) ==>
        && fileOptions == ClosedMenu(old(fileOptions))
        && data == ResetChain(old(fileOptions), old(data)["recording" := Null]).1
        && OnCamera()
        && focusCalls == old(focusCalls) + [(old(TabIndex()), false), (CAMERA, true)]
        && pushed == old(pushed) + [PerspectiveReset, PerspectiveEnable(false)]
        && mods == ResetOutputs(Items(fileOptions), |tabs|)
      ensures action != Some(CloseProject) ==>
        && fileOptions == old(fileOptions) && data == old(data) && tab == old(tab) && pushed == old(pushed)
        && focusCalls == old(focusCalls)
        && forall i :: 0 <= i < |tabs| ==> tabs[i].focused == old(tabs[i].focused)
    {
      var fileOptionKeys := Keys(fileOptions);
      action := MenuAction(fileOptionKeys, val);
      mods := [];
      match action {
        case Some(OpenDialog) =>
          mods := [DialogOpen(OpenProjectDialog, true)];
        case Some(SaveAsDialog) =>
          mods := [DialogOpen(SaveAsNameDialog, true)];
        case Some(CloseProject) =>
          mods := Reset();
        case _ =>
      }
    }

    /** One tick of the streaming loop: the focused tab's frame, dispatched to the display. */
    method StreamTick<F, P>(transform: F -> F) returns (push: Option<Push<F, P>>)
      requires Valid()
      ensures push.None?
    {
      var fr := tab.Frame<F, P>();
      push := Dispatch(fr, transform);
    }

    /**
     * The save branch of save_load_progress: the file name is formed from
     * the store's "project", a defaultdict read that inserts an empty dict
     * when the key is missing; the perspective parameters are
     * stored under "Perspective", the store without bg and recording is what
     * the metadata file receives, and load_update then refreshes the Open
     * entry from `files`, the media directory's listing after the write.
     */
    method SaveMetadata(perspective: Value, files: seq<string>) returns (saved: Store, mods: seq<Mod>)
      requires Valid()
      modifies this`data, this`fileOptions
      ensures Valid()
      ensures data == WithDefault(old(data), "project", true)["Perspective" := perspective]
      ensures saved == SavedMetadata(WithDefault(old(data), "project", true), perspective)
      ensures fileOptions == SetDisabled(old(fileOptions), "open", NoProjects(files))
      ensures mods == [MenuOptions(Items(fileOptions))]
    {
      var _ := Read("project");
      ghost var base := data;
      assert base == WithDefault(old(data), "project", true);
      data := data["Perspective" := perspective];
      var copy := data;
      if "bg" in copy {
        copy := copy - {"bg"};
      }
      assert copy == data - {"bg"};
      if "recording" in copy {
        copy := copy - {"recording"};
      }
      assert copy == data - {"bg", "recording"};
      assert copy == SavedMetadata(base, perspective);
      saved := copy;
      mods := LoadUpdate(files);
    }

    /**
     * The load branch of save_load_progress, first step: when the store
     * holds a recording, the tabs are told that "recording" changed. Any
     * value that is neither None nor a recording raises (ok false); the
     * contract also covers a missing key, which reads as an empty dict,
     * though the store always holds "recording" once reset has run.
     */
    method NotifyRecording(react: (nat, set<string>) -> seq<Mod>) returns (mods: seq<Mod>, ok: bool)
      requires Valid()
      modifies this, tabs
      ensures Valid()
      ensures ok <==> "recording" in old(data) && (old(data)["recording"] == Null || old(data)["recording"].Recording?)
      ensures data == WithDefault(old(data), "recording", true)
      ensures ok ==> data == old(data)
      ensures fileOptions == old(fileOptions) && pushed == old(pushed)
      ensures tab == old(tab) && forall i :: 0 <= i < |tabs| ==> tabs[i].focused == old(tabs[i].focused)
      ensures focusCalls == old(focusCalls)
      ensures ok && old(data)["recording"] == Null ==> mods == []
      ensures ok && old(data)["recording"].Recording? ==>
        mods == Reactions(react, {"recording"}, |tabs|)
                + DataFollowups({"recording"}, old(data), bgCntFinal, Items(fileOptions), |tabs|)
    {
      mods := [];
      ok := true;
      var recording := Read("recording");
      if recording != Null {
        mods, ok := DataUpdate({"recording"}, react);
      }
    }

    /**
     * The load branch of save_load_progress, second step: the file name
     * is formed from the store's "project", a defaultdict read that inserts
     * an empty dict when the key is missing (it runs before the recording
     * notice, which touches no "project" key). The metadata file's
     * contents (None when it cannot be opened or parsed, an error
     * the branch catches) are deep-merged into the store and the tabs are
     * told that the file's keys changed. When data_update raises, its
     * outputs are lost; when it returns, the perspective parameters are
     * read back from the store, which inserts an empty dict under a
     * missing "Perspective".
     */
    method LoadMetadata(loaded: Option<Store>, react: (nat, set<string>) -> seq<Mod>) returns (mods: seq<Mod>)
      requires Valid()
      modifies this, tabs
      ensures Valid()
      ensures loaded.None? ==> data == WithDefault(old(data), "project", true) && mods == []
      ensures loaded.Some? ==>
        var merged := Merge(Dict(WithDefault(old(data), "project", true)), Dict(loaded.value)).entries;
        data == WithDefault(merged, "Perspective", UpdateOk(merged, loaded.value.Keys))
      ensures fileOptions == old(fileOptions) && pushed == old(pushed)
      ensures loaded.Some? ==>
        var merged := Merge(Dict(WithDefault(old(data), "project", true)), Dict(loaded.value)).entries;
        var ok := UpdateOk(merged, loaded.value.Keys);
        && (ok ==> mods == Reactions(react, loaded.value.Keys, |tabs|)
                           + DataFollowups(loaded.value.Keys, merged, bgCntFinal, Items(fileOptions), |tabs|))
        && (!ok ==> mods == [])
        && (FocusesAnalyze(merged, loaded.value.Keys) ==>
              && tab == tabs[ANALYZE] && (forall i :: 0 <= i < |tabs| ==> tabs[i].focused == (i == ANALYZE))
              && focusCalls == old(focusCalls) + [(old(TabIndex()), false), (ANALYZE, true)])
      ensures !(loaded.Some? && FocusesAnalyze(Merge(Dict(WithDefault(old(data), "project", true)), Dict(loaded.value)).entries, loaded.value.Keys)) ==>
        && tab == old(tab) && focusCalls == old(focusCalls)
        && forall i :: 0 <= i < |tabs| ==> tabs[i].focused == old(tabs[i].focused)
    {
      mods := [];
      ghost var from := TabIndex();
      var _ := Read("project");
      ghost var base := data;
      assert base == WithDefault(old(data), "project", true);
      if loaded.Some? {
        var merged := DeepUpdate(Dict(data), Dict(loaded.value));
        assert "recording" in merged.entries;
        data := merged.entries;
        assert TabIndex() == from;
        var changedMods, ok := DataUpdate(loaded.value.Keys, react);
        if ok {
          // set_params reads self.data['Perspective'] on the defaultdict
          var _ := Read("Perspective");
          mods := changedMods;
        }
      }
    }
  }
}
