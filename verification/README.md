# MotionScope project and tab state, in Dafny

MotionScope is a Vizy camera application with four tabs: Camera, Capture,
Process and Analyze. This project models the state logic of its application
object (`MotionScope` in `apps/motionscope/main.py`) and of the base `Tab`
class (`apps/motionscope/tab.py`). It then proves what that logic promises.

The model covers these parts of the application:

- **The project store.** It is a `defaultdict(dict)` from keys to values. In
  the model it is a `map<string, Value>`, and reading a missing key inserts
  an empty dict, as the defaultdict does.
- **The tabs and the focused tab.** The tabs are an ordered list of `Tab`
  objects, and the focused tab is a reference into that list.
- **The File menu.** It is an insertion-ordered dict of menu entries, so
  its key order decides what a click on the n-th entry does.
- **The operations that change these:**
  - opening and closing a project (`reset`, `set_project`, the open callback);
  - switching tabs (`get_tab_func`);
  - propagating changed store keys to the tabs (`data_update`);
  - the File-menu callback and `load_update`.
- **The pure helpers:**
  - the nested dictionary merge (`deep_update`);
  - the project listing (`get_projects`);
  - the progress filter and the metadata filter of `save_load_progress`;
  - one tick of the streaming loop;
  - the Save-as overwrite gate.

Modules, one per file:

- **`Values`** holds the store's values and the merge, both as a
  specification function (`Merge`) and as the loop `deep_update` runs
  (`DeepUpdate`).
- **`OrderedDict`** models a Python dict that keeps insertion order:
  lookup, `del`, assignment and `{**a, **b}`.
- **`FileMenu`** is the File menu and its invariant: the three actions
  Open, Save and Close are present, and the header and the divider are
  either both present or both absent.
- **`Projects`** is `get_projects` over a listing of file names, with
  lexicographic order by code point.
- **`Ui`** holds the outputs the core produces. Each tab is named by its
  position: 0 Camera, 1 Capture, 2 Process, 3 Analyze.
- **`Streaming`** is one tick's frame dispatch.
- **`Tabs`** is the base `Tab` class.
- **`SaveLoad`** holds the progress and metadata parts of the save/load
  worker.
- **`SaveAs`** is the overwrite gate of the Save-as dialog.
- **`App`** is the `MotionScope` class.

`MotionScope.Valid()` states the class invariant:

- there are four tabs, all distinct;
- the focused tab is one of them;
- no other tab thinks it has the focus;
- the File menu satisfies its invariant;
- the store holds "recording". `reset` sets it, and nothing deletes it.

Every method keeps this invariant.

## Model

| member | source | states |
|---|---|---|
| `Values.DeepUpdate` | apps/motionscope/main.py:160-165 | The loop over d2's keys returns exactly `Merge(d1, d2)`. If both sides are dicts, each key of d2 is merged recursively with d1's value under that key, and keys only d1 has are kept. Otherwise the result is d2. |
| `Values.MergeKeepsLeavesOfD2` | apps/motionscope/main.py:160-165 | Every non-dict value of d2, at any key path, is found unchanged at the same path of the merge. |
| `Values.MergeKeepsUntouchedOfD1` | apps/motionscope/main.py:160-165 | Whatever d1 holds under a path that d2 does not reach survives the merge unchanged. |
| `Values.MergeLeavesComeFromInputs` | apps/motionscope/main.py:160-165 | Every non-dict value in the merge comes from d2 or d1, at the same path. |
| `Values.MergeIdempotent` | apps/motionscope/main.py:160-165 | Merging the same d2 twice gives what merging it once gives. |
| `Values.MergeWithItself` | apps/motionscope/main.py:160-165 | Merging a value into itself changes nothing. |
| `Projects.Stem` | apps/motionscope/main.py:57 | `p.split(".")[0]` is a dot-free prefix of the name. It is either the whole name or is followed by a dot. |
| `Projects.StemOfDotted` | apps/motionscope/main.py:57 | The stem of `p + "." + ext` is `p` for a dot-free `p`. |
| `Projects.Insert` | apps/motionscope/main.py:58-60 | Inserting a name into a strictly sorted list keeps it strictly sorted. The members become the old ones plus the name. |
| `Projects.SortUnique` | apps/motionscope/main.py:58-60 | `sorted(set(names))`: the result is strictly sorted and has exactly the names' members. |
| `Projects.CandidatesMembers` | apps/motionscope/main.py:57-59 | A name is kept exactly when it is the stem of a listed file and `<name>.data` is listed. |
| `Projects.CandidateIsProject` | apps/motionscope/main.py:57-59 | A stem is kept exactly when it is dot-free and `<stem>.data` is listed. |
| `Projects.GetProjects` | apps/motionscope/main.py:55-61 | The result is strictly sorted, so it has no duplicates. A name is in it exactly when it is dot-free and `<name>.data` is in the listing. |
| `Projects.SortedListsEqual` | apps/motionscope/main.py:60-61 | Two strictly sorted lists with the same members are equal. |
| `Projects.ProjectsUnique` | apps/motionscope/main.py:55-61 | Any strictly sorted list with the project-membership property is `get_projects`' result, so the two properties determine the result. |
| `SaveAs.OnSaveClick` | apps/motionscope/main.py:85-92 | Pressing Save saves at once, under the typed name, exactly when the name is not an existing project. Otherwise it asks whether to overwrite. |
| `SaveAs.OnOverwriteAnswer` | apps/motionscope/main.py:94-99 | The overwrite question saves under the typed name exactly when the answer is yes. |
| `SaveAs.OverwriteNeedsYes` | apps/motionscope/main.py:85-99 | A dot-free name whose `.data` file exists is saved exactly when the answer is yes. Every other name is saved at once, including a dotted name whose own `.data` file exists. Whatever is saved is saved under the typed name. The outcome is `SaveAsOutcome`: the click's `OnSaveClick`, then, when it asks, `OnOverwriteAnswer` of the answer. |
| `SaveAs.DottedNameOverwritesUnasked` | apps/motionscope/main.py:87-92 | The name "a.b", with "a.b.data" listed, is saved at once even when the answer would be no, because `get_projects` never lists a dotted name. |
| `SaveAs.GuardedSaveAsOutcome` | apps/motionscope/main.py:87-99 | The gate as evidently intended asks whenever `<name>.data` is listed. Whatever it saves is saved under the typed name. |
| `SaveAs.GuardedOverwriteNeedsYes` | apps/motionscope/main.py:87-99 | With the intended gate, an existing `<name>.data` is overwritten exactly when the answer is yes, and a new name is saved at once. |
| `SaveAs.GuardAgreesOnDotFree` | apps/motionscope/main.py:87-99 | For dot-free names, the intended gate and the written one give the same outcome. |
| `SaveLoad.ProgressPushes` | apps/motionscope/main.py:366-378 | The dialog shows `Shown(hasRecording, samples)`. It opens at 0. With a recording, every new maximum of progress is shown minus 2 (`Pushes(samples, 0)`). It always ends at 99. |
| `SaveLoad.PushesFromSamples` | apps/motionscope/main.py:372-376 | Every polled push is `samples[j] - 2` for a sample that is above the starting maximum and above every earlier sample, i.e. a new running maximum. |
| `SaveLoad.PushesAbove` | apps/motionscope/main.py:372-376 | Every polled push is above the starting maximum minus 2, so from 0 no push is below -1. |
| `SaveLoad.PushesIncrease` | apps/motionscope/main.py:372-376 | The values pushed while polling strictly increase. |
| `SaveLoad.PushesBelow99` | apps/motionscope/main.py:372-376 | When progress never exceeds 100, every polled push is at most 98. |
| `SaveLoad.FirstPushDips` | apps/motionscope/main.py:372-375 | The first polled push is -1 exactly when the first sample above 0 is 1. |
| `SaveLoad.DialogOrder` | apps/motionscope/main.py:367-378 | For pushes that strictly increase between -1 and 98: after the opening 0 the values strictly increase up to 99. The whole sequence never goes back exactly when the first push is not -1. |
| `SaveLoad.ProgressNeverGoesBack` | apps/motionscope/main.py:366-378 | When progress never exceeds 100, the dialog opens at 0 and ends at 99, and every value after the 0 is above the one before. The shown progress never goes back, except when the first sample above 0 is 1, which is shown as -1 right after the 0. |
| `SaveLoad.ProgressDipsOnOne` | apps/motionscope/main.py:367-375 | For samples 1, 50 the dialog shows 0, -1, 48, 99, which goes back. |
| `SaveLoad.SavedMetadata` | apps/motionscope/main.py:386-392 | The metadata file holds the store's keys plus "Perspective", minus "bg" and "recording". "Perspective" holds the current parameters, and every other key keeps the store's value. |
| `SaveLoad.SaveThenLoad` | apps/motionscope/main.py:386-407 | Saving, then loading into a store with no dict under a saved key, restores every saved key and the perspective. Keys the file lacks keep their values. |
| `Streaming.Dispatch` | apps/motionscope/main.py:427-436 | A tuple pushes its transformed first element with its period. Any other frame pushes the transformed frame with no period. None pushes nothing. |
| `OrderedDict.Keys` | apps/motionscope/main.py:257 | `list(d.keys())` lists the entries' keys in order. |
| `OrderedDict.LookupKeys` | apps/motionscope/main.py:257-258 | A key is found exactly when it is among the dict's keys. |
| `OrderedDict.LookupAt` | apps/motionscope/main.py:257-258 | In a dict, the value found under a key is that key's entry. |
| `OrderedDict.Remove` | apps/motionscope/main.py:300-301 | `del d[k]` leaves no k, every remaining entry comes from the dict, and every other entry is kept. |
| `OrderedDict.RemoveDistinct` | apps/motionscope/main.py:300-301 | `del` keeps a dict's keys distinct. |
| `OrderedDict.RemoveCons` | apps/motionscope/main.py:300-301 | Removing a key from a dict whose first entry is known. |
| `OrderedDict.RemoveAbsent` | apps/motionscope/main.py:300-301 | Removing a key that is not there changes nothing. |
| `OrderedDict.LookupRemove` | apps/motionscope/main.py:300-301 | Removing one key leaves what every other key finds. |
| `OrderedDict.Delete` | apps/motionscope/main.py:300-305 | `del d[k]` raises KeyError (None) exactly when k is missing. Otherwise it removes k. |
| `OrderedDict.PutNew` | apps/motionscope/main.py:328 | Assigning a new key appends it at the end. This is `Put`, which keeps an existing key in place and appends a new one. |
| `OrderedDict.UpdateDisjoint` | apps/motionscope/main.py:328 | `{**a, **b}` with disjoint keys is a's entries followed by b's. This is `Update`, which applies `Put` for each of b's entries in order. |
| `FileMenu.InitialMenuValid` | apps/motionscope/main.py:198 | The initial menu keeps the invariant and has no header. Open, Save and Close are disabled, and Save as is enabled. |
| `FileMenu.SetDisabled` | apps/motionscope/main.py:306-307 | Setting an entry's `disabled` keeps the length and the key of every position. |
| `FileMenu.SetDisabledLookup` | apps/motionscope/main.py:306-307 | Setting one entry's flag changes that flag and nothing else. |
| `FileMenu.SetDisabledDistinct` | apps/motionscope/main.py:306-307 | Setting a flag keeps the keys distinct. |
| `FileMenu.SetDisabledValid` | apps/motionscope/main.py:363 | Setting a flag keeps the menu invariant and sets exactly that entry's flag. |
| `FileMenu.SetDisabledKeys` | apps/motionscope/main.py:306-307 | Setting a flag keeps the key order. |
| `FileMenu.SetDisabledOverride` | apps/motionscope/main.py:306-307 | A later flag on the same entry overrides an earlier one. |
| `FileMenu.SetDisabledCommute` | apps/motionscope/main.py:306-307 | Flags on different entries can be set in either order. |
| `FileMenu.WithoutHeaderLookup` | apps/motionscope/main.py:321-325 | On a valid menu, the `del` chain removes the header and the divider and leaves every other entry as it was. |
| `FileMenu.OpenBodyLookup` | apps/motionscope/main.py:321-327 | Below the new header there is no header or divider. Save and Close are enabled, and the key order is the old one without header and divider. |
| `FileMenu.PrependHeader` | apps/motionscope/main.py:328 | `{header, divider, **body}` is the two entries followed by the body. Both are found, and every other key finds the body's entry. |
| `FileMenu.ProjectMenu` | apps/motionscope/main.py:319-328 | After `set_project`, the first two keys are header and divider, and each appears exactly once. The rest keep their relative order. Save and Close are enabled, and every other entry is unchanged. |
| `FileMenu.WithoutProjectHeader` | apps/motionscope/main.py:321-325 | The `del` chain on a project menu takes off exactly the header and the divider in front. |
| `FileMenu.OpenBodyAgain` | apps/motionscope/main.py:319-328 | Calling `set_project` again, with any name, leaves the body below the header as the first call left it. The header and the divider never pile up. |
| `FileMenu.CloseAfterOpen` | apps/motionscope/main.py:300-307 | Closing a project restores the menu that closing gives without the project. |
| `FileMenu.ClosedMenuLookup` | apps/motionscope/main.py:299-307 | After `reset`, the menu keeps its invariant and has no header or divider. Save and Close are disabled, and every other entry is unchanged. |
| `FileMenu.LoadThenClose` | apps/motionscope/main.py:281 | At start-up, `load_update` sets Open's flag and `reset` then closes the menu. Open's flag survives the close, Save and Close end disabled, and the menu keeps its invariant. |
| `FileMenu.ClosedMenuKeys` | apps/motionscope/main.py:299-307 | After `reset`, the remaining entries keep their order. |
| `FileMenu.MenuAction` | apps/motionscope/main.py:255-267 | The clicked index picks a key of the current order, and a negative index counts from the end. An action exists exactly when the index is in range; otherwise `file_options[val]` raises. |
| `FileMenu.MenuActionShift` | apps/motionscope/main.py:257-258 | Once a project is open, each action sits two places further down. |
| `FileMenu.HeaderClickCloses` | apps/motionscope/main.py:266-267 | With a project open, a click on the header or the divider takes the last branch, which closes the project. |
| `FileMenu.InitialMenuActions` | apps/motionscope/main.py:198 | On the initial menu the entries are Open, Save, Save as and Close, and index 4 is out of range. |
| `App.TabViewShowsOne` | apps/motionscope/main.py:333 | A switch to tab k marks exactly one panel open and one link active, both for k. |
| `App.ResetOutputsDisable` | apps/motionscope/main.py:310 | `reset`'s outputs disable Analyze and Process, enable no tab, and show only Camera. |
| `App.ResetChainReach` | apps/motionscope/main.py:299-305 | On a menu whose header and divider are both present or both absent, the `del` chain leaves the menu as `WithoutHeader` does. The store deletions are reached exactly when the menu had its header. This is `ResetChain`, which pairs the menu after the `del` chain with the store after it. |
| `App.DropObjDataKeys` | apps/motionscope/main.py:302-303 | The store deletions always remove obj_data. They remove project only when obj_data was there, so a project without obj_data keeps its name. Nothing else is touched. |
| `App.DataFollowupsNav` | apps/motionscope/main.py:349-357 | Process is enabled only for a changed recording longer than `BG_CNT_FINAL`, and never disabled. Analyze is enabled exactly when a changed obj_data is truthy, and disabled exactly when it is falsy. |
| `App.MotionScope.constructor` | apps/motionscope/main.py:169-198 | There are four tabs, and Camera is focused. After start-up the store holds only `recording = None`. The menu is the initial one with Open disabled exactly when no project exists, then closed: keys open, save, save-as, close, with no header and Save and Close disabled. The start-up pushes are the perspective reset and disable, then `load_update`'s redraw, then `reset`'s outputs. The focus log is Camera's focus(False) then its focus(True), from `reset`. The store starts as `{recording: None}` rather than empty. `reset` sets that key before anything reads the store, so the end state is the same. |
| `App.MotionScope.MakeTabs` | apps/motionscope/main.py:188-193 | The four tabs are new, distinct, named in order and not focused. |
| `App.MotionScope.Start` | apps/motionscope/main.py:281 | The menu becomes `ClosedMenu` of `load_update`'s menu. The start-up push is `load_update`'s outputs followed by `reset`'s, after reset's own perspective push. The focus log gains the old tab's focus(False), then Camera's focus(True). |
| `App.MotionScope.LoadUpdate` | apps/motionscope/main.py:361-364 | Open is disabled exactly when `get_projects` is empty, and the menu is redrawn. |
| `App.MotionScope.SwitchTab` | apps/motionscope/main.py:331-343 | The old tab gets `focus(False)`, then the new one gets `focus(True)`. The reference moves, only the new tab is focused, and the outputs open one panel and activate one link, both for the new tab. |
| `App.MotionScope.Read` | apps/motionscope/main.py:173 | Indexing the defaultdict returns the stored value. For a missing key it inserts an empty dict and returns it. |
| `App.MotionScope.DataUpdate` | apps/motionscope/main.py:345-359 | Every tab gets the same changed set, in tab order. Then the Process and Analyze outputs of `DataFollowups` follow. A truthy changed obj_data moves the focus to Analyze; otherwise the focus is unchanged. A changed non-recording raises. When the focus moves, the log gains the old tab's focus(False), then Analyze's focus(True). Otherwise the log is unchanged. |
| `App.MotionScope.ClearProject` | apps/motionscope/main.py:297-307 | recording becomes None. The deletions stop at the first missing key. Save and Close are disabled, and the header and the divider are gone. |
| `App.MotionScope.ResetTabs` | apps/motionscope/main.py:292-297 | Every tab is reset, which has no outputs, and then the perspective reset and disable are pushed. |
| `App.MotionScope.Reset` | apps/motionscope/main.py:291-310 | Tab resets and the perspective reset are pushed first. The project is cleared, Camera gets the focus, and the returned outputs disable Analyze and Process and redraw the menu. |
| `App.MotionScope.SetProject` | apps/motionscope/main.py:319-329 | The store names the project. The header and the divider come first, each exactly once. The other entries keep their order, Save and Close are enabled, and the menu is redrawn. |
| `App.MotionScope.ShowAndReset` | apps/motionscope/main.py:231-236 | The load dialog is shown at 0% and opened, then reset runs. The pushes are those two followed by reset's. The store and the menu are as reset leaves them, and only Camera is focused. The focus log gains the old tab's focus(False), then Camera's focus(True). |
| `App.MotionScope.Open` | apps/motionscope/main.py:231-237 | The load dialog is shown, then reset runs, then the project is set. The outputs pushed are exactly those, in order. The store names the project with no recording, Save and Close are enabled, and only Camera is focused. The focus log gains the old tab's focus(False), then Camera's focus(True). |
| `App.MotionScope.FileMenuClick` | apps/motionscope/main.py:255-267 | The action is picked from the current key order. Open and Save as return the output opening their dialog. Close resets, pushes the perspective reset and disable, leaves only Camera focused and returns `reset`'s outputs. Save and an index out of range return nothing. Everything but Close leaves the store, the menu, the pushes and the focus unchanged. Close adds the old tab's focus(False), then Camera's focus(True), to the focus log. Every other action leaves the log unchanged. |
| `App.MotionScope.StreamTick` | apps/motionscope/main.py:425-436 | A tick on a base tab pushes nothing. |
| `App.MotionScope.SaveMetadata` | apps/motionscope/main.py:382-394 | Forming the file name reads "project" from the defaultdict, which inserts `{}` when it is missing. The store then gains "Perspective". The file receives `SavedMetadata` of that store, so it receives the `{}` too. Open is refreshed from the new listing. The read of "recording" at line 371 always finds the key, because the class invariant keeps it in the store. |
| `App.MotionScope.NotifyRecording` | apps/motionscope/main.py:397-399 | With a recording present, the tabs are told that "recording" changed. A None recording produces nothing. Any other value raises. The contract also covers a missing key, which reads as `{}` that the defaultdict keeps, though the class invariant keeps "recording" in the store. The menu, the pushes, the focus and the focus log never change. |
| `App.MotionScope.LoadMetadata` | apps/motionscope/main.py:382-409 | Forming the file name reads "project", which inserts `{}` when it is missing, even when the file then cannot be read. The file's contents are deep-merged into that store, then `data_update` runs on the file's keys. When the file cannot be read, or `data_update` raises, no outputs are produced. When `data_update` returns, reading the perspective back inserts `{}` under a missing "Perspective". Analyze takes the focus exactly when `data_update` gets past its recording test and the merged obj_data is among the file's keys and truthy. The focus log then gains the old tab's focus(False), then Analyze's focus(True). Otherwise the focus and the log stay. The menu and the pushes never change. |
| `Tabs.Tab.constructor` | apps/motionscope/tab.py:14-18 | A new tab has its name and is not focused. |
| `Tabs.Tab.Frame` | apps/motionscope/tab.py:20-21 | The base tab has no frame. |
| `Tabs.Tab.Focus` | apps/motionscope/tab.py:23-25 | `focused` becomes exactly `state`, and there are no outputs. |
| `Tabs.Tab.Reset` | apps/motionscope/tab.py:27-28 | There are no outputs and nothing changes. |
| `Tabs.FocusTwice` | apps/motionscope/tab.py:23-25 | `focus` is idempotent: a second `focus(s)` leaves the state the first call produced. |

## Findings

| source | as written | input that shows it | evidently intended | confidence | as-written member | corrected member |
|---|---|---|---|---|---|---|
| apps/motionscope/main.py:87-92 | The Save-as dialog asks before overwriting only when the typed name is in `get_projects()`. That list holds only dot-free stems. | Name "a.b" with "a.b.data" and "a.b.raw" in the media directory: saved at once, over the existing files, with no question. | Ask whenever the file the save writes, `<name>.data`, already exists. | medium, not executed | `SaveAs.DottedNameOverwritesUnasked` | `SaveAs.GuardedOverwriteNeedsYes` |

## Left out

- Threads, the lock and the `run_thread`/`run_progress` flags are not
  modelled. Each callback runs to completion, and only one tick of
  `thread()` is modelled.
- File and JSON I/O is not modelled: `os.listdir`, `os.path.exists`,
  `open`, `json.dump`/`json.load`, `mkdir` and the numpy encoders. The media
  directory is a list of file names. The metadata file is a map, or None
  when it cannot be opened or parsed.
- Dash and kritter widgets, layout, and dialog rendering are not modelled.
  Outputs are the `Ui.Mod` values.
- The OpenProjectDialog is left out, including its delete-project branch.
- The camera, `Perspective`, `Kvideo.push_frame` and `vpb.led` are left
  out. `Perspective.transform` is a function parameter, `get_params` is a
  value, and `set_params` and the Analyze graph redraw on load are not
  modelled. The store read that hands `set_params` its argument is
  modelled, in `LoadMetadata`.
- The recording handle is only its `len()`, as `Recording(frames)`. Its
  `save`, `load` and `progress` calls become a list of progress samples
  (`ProgressPushes`).
- The concrete Camera, Capture, Process and Analyze tabs and the
  `DataUpdate` base class are not part of this model. Every tab is a base
  `Tab`. Each tab's own `data_update` is an opaque parameter
  `react(tab index, changed)` that returns outputs. `data_update`'s
  optional `cmem` argument, which the source hands on to every tab, is
  left out: no modelled caller passes it, and only the tabs read it. The
  tabs' names are taken as "Camera", "Capture", "Process" and "Analyze".
- `App.MotionScope.NotifyRecording`: the source passes the string
  "recording" as `changed`. For `data_update`'s own tests, `"recording" in`
  and `"obj_data" in` that string, this is the set {"recording"}. The tabs'
  reactions are opaque either way.
- `Tab.kapp` and the data handle of the `Tab` constructor are left out.
  Nothing in the base class reads them.
- The rest of the open callback, after `set_project`, is not modelled:
  creating and loading the recording, starting the progress thread, and
  `save()`. It is I/O.
- `App.MotionScope.FileMenuClick`: the Save entry's call to `save()` is
  not modelled, so that branch returns no outputs and changes nothing here.
- `save()` is not modelled, nor the Save-as callback's call to it. The
  callback's call to `set_project` is `SetProject`.
- `App.MotionScope.LoadMetadata`: an exception raised inside `data_update`
  is modelled as "no outputs from this step". The store keeps the merge.
- `Values.DeepUpdate` works on values: it returns the merged dictionary
  instead of updating `d1` in place. So aliasing between the store and
  nested dicts is not modelled.
- `BG_CNT_FINAL` is a constructor parameter, and `import_config` is left out.
- Progress values are unbounded integers. `ProgressNeverGoesBack` assumes
  that `progress()` never reports more than 100.
- The progress dialog's `out_open(True)`, pushed together with the
  opening 0, is not part of `Shown`, which holds only the progress values.
