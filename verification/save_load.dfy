/**
 * The pure parts of the background save/load worker
 * (save_load_progress in apps/motionscope/main.py): which progress values
 * reach the dialog, what the metadata file holds, and what loading it back
 * does to the store.
 */
module SaveLoad {
  import opened Values

  /**
   * The values pushed while polling the recording's progress: a sample
   * larger than the largest seen so far is shown minus 2, others are
   * skipped.
   */
  function Pushes(samples: seq<int>, best: int): seq<int>
    decreases |samples|
  {
    if samples == [] then []
    else if samples[0] > best then [samples[0] - 2] + Pushes(samples[1..], samples[0])
    else Pushes(samples[1..], best)
  }

  /**
   * Everything the progress dialog shows during one save or load: 0 when
   * it opens, the polled pushes when there is a recording, and 99 at the
   * end.
   */
  function Shown(hasRecording: bool, samples: seq<int>): seq<int>
  {
    [0] + (if hasRecording then Pushes(samples, 0) else []) + [99]
  }

  /**
   * The progress loop: `samples` are the values progress() returned while
   * the transfer ran. The dialog opens at 0; without a recording nothing
   * is polled; 99 is pushed at the end either way.
   */
  method ProgressPushes(hasRecording: bool, samples: seq<int>) returns (pushed: seq<int>)
    ensures pushed == Shown(hasRecording, samples)
  {
    pushed := [0];
    if hasRecording {
      var best := 0;
      var i := 0;
      while i < |samples|
        invariant 0 <= i <= |samples|
        invariant pushed + Pushes(samples[i..], best) == [0] + Pushes(samples, 0)
      {
        var progress := samples[i];
        assert samples[i..][1..] == samples[i + 1..];
        if progress > best {
          pushed := pushed + [progress - 2];
          best := progress;
        }
        i := i + 1;
      }
    }
    pushed := pushed + [99];
  }

  predicate StrictlyIncreasing(s: seq<int>)
  {
    forall i, j :: 0 <= i < j < |s| ==> s[i] < s[j]
  }

  predicate NonDecreasing(s: seq<int>)
  {
    forall i, j :: 0 <= i < j < |s| ==> s[i] <= s[j]
  }

  /** samples[j] is above every sample before it. */
  predicate NewMax(samples: seq<int>, j: nat)
    requires j < |samples|
  {
    forall i :: 0 <= i < j ==> samples[i] < samples[j]
  }

  /**
   * Every pushed value is samples[j] - 2 for a sample samples[j] above the
   * starting best and above every sample before it: a new running maximum.
   */
  lemma {:induction false} PushesFromSamples(samples: seq<int>, best: int)
    ensures forall x :: x in Pushes(samples, best) ==>
      (exists j :: 0 <= j < |samples| && x == samples[j] - 2 && samples[j] > best && NewMax(samples, j))
    decreases |samples|
  {
    if samples != [] {
      var best' := if samples[0] > best then samples[0] else best;
      PushesFromSamples(samples[1..], best');
      forall x | x in Pushes(samples, best)
        ensures exists j :: 0 <= j < |samples| && x == samples[j] - 2 && samples[j] > best && NewMax(samples, j)
      {
        if samples[0] > best && x == samples[0] - 2 {
          assert NewMax(samples, 0);
        } else {
          assert x in Pushes(samples[1..], best');
          var j' :| 0 <= j' < |samples[1..]| && x == samples[1..][j'] - 2 && samples[1..][j'] > best'
            && NewMax(samples[1..], j');
          var j := j' + 1;
          forall i | 0 <= i < j ensures samples[i] < samples[j] {
            if i > 0 { assert samples[i] == samples[1..][i - 1]; }
          }
          assert NewMax(samples, j);
        }
      }
    }
  }

  /** Each pushed value is above everything pushed before it, so they strictly increase. */
  lemma {:induction false} PushesIncrease(samples: seq<int>, best: int)
    ensures StrictlyIncreasing(Pushes(samples, best))
    decreases |samples|
  {
    if samples != [] {
      var best' := if samples[0] > best then samples[0] else best;
      PushesIncrease(samples[1..], best');
      if samples[0] > best {
        var rest := Pushes(samples[1..], best');
        PushesAbove(samples[1..], best');
        var p := Pushes(samples, best);
        assert p == [samples[0] - 2] + rest;
        forall i, j | 0 <= i < j < |p| ensures p[i] < p[j] {
          if i == 0 {
            assert p[j] == rest[j - 1] && p[j] in rest;
          } else {
            assert p[i] == rest[i - 1] && p[j] == rest[j - 1];
          }
        }
      }
    }
  }

  /** Every pushed value is above the starting best minus 2. */
  lemma {:induction false} PushesAbove(samples: seq<int>, best: int)
    ensures forall x :: x in Pushes(samples, best) ==> x > best - 2
    decreases |samples|
  {
    if samples != [] {
      PushesAbove(samples[1..], if samples[0] > best then samples[0] else best);
    }
  }

  /** A sample of at most 100 is pushed as at most 98. */
  lemma {:induction false} PushesBelow99(samples: seq<int>, best: int)
    requires forall i :: 0 <= i < |samples| ==> samples[i] <= 100
    ensures forall x :: x in Pushes(samples, best) ==> x <= 98
    decreases |samples|
  {
    if samples != [] {
      PushesBelow99(samples[1..], if samples[0] > best then samples[0] else best);
    }
  }

  /** No sample before samples[i] is above 0. */
  predicate NoRiseBefore(samples: seq<int>, i: nat)
    requires i <= |samples|
  {
    forall j :: 0 <= j < i ==> samples[j] <= 0
  }

  /** The first sample above 0 is exactly 1: it is shown as 1 - 2 = -1. */
  predicate FirstRiseIsOne(samples: seq<int>)
  {
    exists i :: 0 <= i < |samples| && samples[i] == 1 && NoRiseBefore(samples, i)
  }

  /** The first polled push is -1 exactly when the first sample above 0 is 1. */
  lemma {:induction false} FirstPushDips(samples: seq<int>)
    ensures Pushes(samples, 0) != [] && Pushes(samples, 0)[0] == -1 <==> FirstRiseIsOne(samples)
    decreases |samples|
  {
    if samples != [] {
      if samples[0] > 0 {
        if FirstRiseIsOne(samples) {
          var i :| 0 <= i < |samples| && samples[i] == 1 && NoRiseBefore(samples, i);
          assert i == 0;
        }
        if samples[0] == 1 {
          assert NoRiseBefore(samples, 0);
        }
      } else {
        FirstPushDips(samples[1..]);
        if FirstRiseIsOne(samples) {
          var i :| 0 <= i < |samples| && samples[i] == 1 && NoRiseBefore(samples, i);
          assert samples[1..][i - 1] == 1;
          forall j | 0 <= j < i - 1 ensures samples[1..][j] <= 0 { assert samples[1..][j] == samples[j + 1]; }
          assert NoRiseBefore(samples[1..], i - 1);
        }
        if FirstRiseIsOne(samples[1..]) {
          var i :| 0 <= i < |samples[1..]| && samples[1..][i] == 1 && NoRiseBefore(samples[1..], i);
          forall j | 0 <= j < i + 1 ensures samples[j] <= 0 { if j > 0 { assert samples[j] == samples[1..][j - 1]; } }
          assert samples[i + 1] == 1 && NoRiseBefore(samples, i + 1);
        }
      }
    }
  }

  /**
   * The dialog's sequence 0, the polled pushes p, 99: with p strictly
   * increasing between -1 and 98, everything after the 0 strictly
   * increases, and the whole never goes back exactly when p does not start
   * at -1.
   */
  lemma DialogOrder(p: seq<int>)
    requires StrictlyIncreasing(p)
    requires forall x :: x in p ==> -1 <= x <= 98
    ensures StrictlyIncreasing(([0] + p + [99])[1..])
    ensures NonDecreasing([0] + p + [99]) <==> p == [] || p[0] != -1
  {
    var shown := [0] + p + [99];
    assert shown[1..] == p + [99];
    assert forall i :: 0 <= i < |p| ==> p[i] in p;
    if p == [] || p[0] != -1 {
      forall i, j | 0 <= i < j < |shown| ensures shown[i] <= shown[j] {
        if i > 0 {
          assert shown[i] == shown[1..][i - 1] && shown[j] == shown[1..][j - 1];
        } else if j < |shown| - 1 {
          assert shown[j] == p[j - 1] && p[0] in p;
          if j - 1 > 0 { assert p[0] < p[j - 1]; }
        }
      }
    } else {
      assert shown[0] > shown[1];
    }
  }

  /**
   * With progress() reporting at most 100, the dialog opens at 0, ends at
   * 99, and every value after the 0 is above the one before. The shown
   * progress never goes back unless the first sample above 0 is 1, which
   * is shown as -1 right after the initial 0.
   */
  lemma ProgressNeverGoesBack(hasRecording: bool, samples: seq<int>)
    requires forall i :: 0 <= i < |samples| ==> samples[i] <= 100
    ensures var shown := Shown(hasRecording, samples);
      && shown[0] == 0 && shown[|shown| - 1] == 99
      && StrictlyIncreasing(shown[1..])
      && (NonDecreasing(shown) <==> !(hasRecording && FirstRiseIsOne(samples)))
  {
    PushesIncrease(samples, 0);
    PushesBelow99(samples, 0);
    PushesAbove(samples, 0);
    FirstPushDips(samples);
    var p := if hasRecording then Pushes(samples, 0) else [];
    DialogOrder(p);
  }

  /** A first sample of 1 makes the dialog go from 0 down to -1. */
  lemma ProgressDipsOnOne()
    ensures Shown(true, [1, 50]) == [0, -1, 48, 99]
    ensures !NonDecreasing(Shown(true, [1, 50]))
  {
    assert Pushes([1, 50], 0) == [-1, 48] by {
      assert [1, 50][1..] == [50];
      assert [50][1..] == [];
    }
    var shown := Shown(true, [1, 50]);
    assert shown[0] > shown[1];
  }

  /**
   * The metadata file's content: the store with the current perspective
   * parameters under "Perspective", without the background model "bg" and
   * without the recording, which has a file of its own.
   */
  function SavedMetadata(store: map<string, Value>, perspective: Value): (r: map<string, Value>)
    ensures r.Keys == (store.Keys + {"Perspective"}) - {"bg", "recording"}
    ensures r["Perspective"] == perspective
    ensures forall k :: k in r && k != "Perspective" ==> r[k] == store[k]
  {
    store["Perspective" := perspective] - {"bg", "recording"}
  }

  /**
   * Save, then open: loading the metadata into the freshly reset store
   * `reopened` restores every saved key except "bg" and "recording", as long
   * as `reopened` holds no dictionary under a saved key (which would be
   * merged into rather than replaced). Keys the metadata lacks keep their
   * values from `reopened`.
   */
  lemma SaveThenLoad(store: map<string, Value>, perspective: Value, reopened: map<string, Value>)
    requires forall k :: k in reopened && k in SavedMetadata(store, perspective) ==> !reopened[k].Dict?
    ensures var loaded := Merge(Dict(reopened), Dict(SavedMetadata(store, perspective)));
      && loaded.Dict?
      && loaded.entries["Perspective"] == perspective
      && (forall k :: k in store && k !in {"bg", "recording", "Perspective"} ==>
            k in loaded.entries && loaded.entries[k] == store[k])
      && (forall k :: k in reopened && k !in SavedMetadata(store, perspective) ==>
            k in loaded.entries && loaded.entries[k] == reopened[k])
  {
  }
}
