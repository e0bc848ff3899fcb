/**
 * The overwrite gate of the Save-as dialog (SaveAsDialog in
 * apps/motionscope/main.py): a name that is already a project is saved
 * only after the user answers "yes" to the overwrite question.
 */
module SaveAs {
  import opened Optional
  import Projects

  /** What pressing Save does: ask about overwriting, or close the dialog and save under the name. */
  datatype SaveClick = AskOverwrite(prompt: string) | SaveNow(name: string)

  function OnSaveClick(name: string, projects: seq<string>): (r: SaveClick)
    ensures r.SaveNow? <==> name !in projects
    ensures r.SaveNow? ==> r.name == name
  {
    if name in projects then AskOverwrite("\"" + name + "\" exists. Do you want to overwrite?")
    else SaveNow(name)
  }

  /** The answer to the overwrite question: saving goes ahead only on "yes". */
  function OnOverwriteAnswer(name: string, yes: bool): (r: Option<string>)
    ensures r.Some? <==> yes
    ensures r.Some? ==> r.value == name
  {
    if yes then Some(name) else None
  }

  /**
   * The name the dialog hands to the save callback, if any, when Save is
   * pressed with `files` in the media directory; `answer` is the reply to
   * the overwrite question if it is asked.
   */
  function SaveAsOutcome(name: string, files: seq<string>, answer: Option<bool>): Option<string>
  {
    match OnSaveClick(name, Projects.GetProjects(files))
    case SaveNow(n) => Some(n)
    case AskOverwrite(_) => if answer.Some? then OnOverwriteAnswer(name, answer.value) else None
  }

  /**
   * A new name is saved at once; a name whose `.data` file exists is saved
   * exactly when the answer is "yes". Whatever is saved, it is saved under
   * the typed name.
   */
  lemma OverwriteNeedsYes(name: string, files: seq<string>, answer: Option<bool>)
    ensures var out := SaveAsOutcome(name, files, answer);
      && (out.Some? ==> out.value == name)
      && ('.' !in name && name + ".data" in files ==> (out.Some? <==> answer == Some(true)))
      && (!('.' !in name && name + ".data" in files) ==> out == Some(name))
  {
  }

  /**
   * The dialog as written asks before overwriting only names that
   * get_projects lists, and those never contain a dot. A dotted name whose
   * `.data` file exists is saved at once, over that file, whatever the
   * answer would have been.
   */
  lemma DottedNameOverwritesUnasked()
    ensures "a.b" + ".data" in ["a.b.data", "a.b.raw"]
    ensures SaveAsOutcome("a.b", ["a.b.data", "a.b.raw"], Some(false)) == Some("a.b")
  {
    assert "a.b" + ".data" == "a.b.data";
    assert "a.b"[1] == '.';
    var projects := Projects.GetProjects(["a.b.data", "a.b.raw"]);
    assert "a.b" !in projects;
    assert OnSaveClick("a.b", projects) == SaveNow("a.b");
  }

  /**
   * The gate as evidently intended: ask whenever the file the save would
   * write, `<name>.data`, is already in the media directory.
   */
  function GuardedSaveAsOutcome(name: string, files: seq<string>, answer: Option<bool>): (r: Option<string>)
    ensures r.Some? ==> r.value == name
  {
    if name + ".data" in files then
      (if answer.Some? then OnOverwriteAnswer(name, answer.value) else None)
    else Some(name)
  }

  /** With the intended gate, an existing `.data` file is overwritten only after a "yes". */
  lemma GuardedOverwriteNeedsYes(name: string, files: seq<string>, answer: Option<bool>)
    ensures var out := GuardedSaveAsOutcome(name, files, answer);
      && (name + ".data" in files ==> (out.Some? <==> answer == Some(true)))
      && (name + ".data" !in files ==> out == Some(name))
  {
  }

  /** For dot-free names, the names every real project has, the intended gate is the one written. */
  lemma GuardAgreesOnDotFree(name: string, files: seq<string>, answer: Option<bool>)
    requires '.' !in name
    ensures GuardedSaveAsOutcome(name, files, answer) == SaveAsOutcome(name, files, answer)
  {
    assert name in Projects.GetProjects(files) <==> name + ".data" in files;
  }
}
