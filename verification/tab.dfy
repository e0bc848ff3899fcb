/**
 * The base tab (class Tab in apps/motionscope/tab.py): the focus, frame
 * and reset behaviour every tab of the application starts from.
 */
module Tabs {
  import opened Ui
  import opened Streaming

  class Tab {
    const name: string
    var focused: bool

    constructor (name: string)
      ensures this.name == name && !focused
    {
      this.name := name;
      focused := false;
    }

    /** The base tab has no frame to show. */
    method Frame<F, P>() returns (fr: FrameResult<F, P>)
      ensures fr == NoFrame
    {
      fr := NoFrame;
    }

    /** Entering (true) or leaving (false) the tab; no outputs. */
    method Focus(state: bool) returns (mods: seq<Mod>)
      modifies this
      ensures focused == state && mods == []
    {
      focused := state;
      mods := [];
    }

    /** Resetting the base tab has nothing to clear and no outputs. */
    method Reset() returns (mods: seq<Mod>)
      ensures mods == []
    {
      mods := [];
    }
  }

  /** focus is idempotent: a second focus(s) leaves the state the first produced. */
  method FocusTwice(t: Tab, s: bool)
    modifies t
    ensures t.focused == s
  {
    var _ := t.Focus(s);
    ghost var once := t.focused;
    var _ := t.Focus(s);
    assert t.focused == once;
  }
}
