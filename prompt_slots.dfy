/** The per-ingredient result lists of the two recommendation handlers
    (api/search.py and fetch_user_preference/app_fetch.py): each ingredient
    appends one entry to the prompt list and at most one to the error list. */
module PromptSlots {
  import opened PyValues

  /** What one ingredient contributes: its prompt slot, and the error it
      adds, if any. */
  datatype Slot = Slot(prompt: string, error: Option<string>)

  /** The prompt list after the loop: one entry per slot. */
  function PromptsOf(slots: seq<Slot>): (r: seq<string>)
    ensures |r| == |slots|
  {
    if slots == [] then [] else PromptsOf(slots[..|slots| - 1]) + [slots[|slots| - 1].prompt]
  }

  /** The error list after the loop: the errors of the slots that have one. */
  function ErrorsOf(slots: seq<Slot>): seq<string> {
    if slots == [] then []
    else
      var last := slots[|slots| - 1];
      ErrorsOf(slots[..|slots| - 1]) + (if last.error.Some? then [last.error.value] else [])
  }

  /** One loop iteration appends the slot's prompt and, if it has one, its
      error. */
  lemma {:induction false} Append(slots: seq<Slot>, s: Slot)
    ensures PromptsOf(slots + [s]) == PromptsOf(slots) + [s.prompt]
    ensures ErrorsOf(slots + [s]) == ErrorsOf(slots) + (if s.error.Some? then [s.error.value] else [])
  {
    assert (slots + [s])[..|slots|] == slots;
  }

  lemma {:induction false} PromptAt(slots: seq<Slot>, k: nat)
    requires k < |slots|
    ensures PromptsOf(slots)[k] == slots[k].prompt
  {
    if k < |slots| - 1 {
      PromptAt(slots[..|slots| - 1], k);
    }
  }

  /** There are never more errors than slots. */
  lemma {:induction false} ErrorsBound(slots: seq<Slot>)
    ensures |ErrorsOf(slots)| <= |slots|
  {
    if slots != [] {
      ErrorsBound(slots[..|slots| - 1]);
    }
  }

  /** As many errors as slots exactly when every slot has an error. */
  lemma {:induction false} ErrorsAll(slots: seq<Slot>)
    ensures |ErrorsOf(slots)| == |slots| <==> forall k :: 0 <= k < |slots| ==> slots[k].error.Some?
  {
    if slots != [] {
      var init := slots[..|slots| - 1];
      var last := slots[|slots| - 1];
      ErrorsAll(init);
      ErrorsBound(init);
      if last.error.Some? {
        assert |ErrorsOf(slots)| == |ErrorsOf(init)| + 1;
        if forall k :: 0 <= k < |init| ==> init[k].error.Some? {
          forall k | 0 <= k < |slots| ensures slots[k].error.Some? {
            if k < |init| {
              assert slots[k] == init[k];
            }
          }
        } else {
          var j :| 0 <= j < |init| && init[j].error.None?;
          assert slots[j] == init[j];
        }
      } else {
        assert |ErrorsOf(slots)| == |ErrorsOf(init)|;
      }
    }
  }

  /** No errors exactly when no slot has one. */
  lemma {:induction false} ErrorsNone(slots: seq<Slot>)
    ensures ErrorsOf(slots) == [] <==> forall k :: 0 <= k < |slots| ==> slots[k].error.None?
  {
    if slots != [] {
      var init := slots[..|slots| - 1];
      var last := slots[|slots| - 1];
      ErrorsNone(init);
      if last.error.None? {
        assert ErrorsOf(slots) == ErrorsOf(init);
        if forall k :: 0 <= k < |init| ==> init[k].error.None? {
          forall k | 0 <= k < |slots| ensures slots[k].error.None? {
            if k < |init| {
              assert slots[k] == init[k];
            }
          }
        } else {
          var j :| 0 <= j < |init| && init[j].error.Some?;
          assert slots[j] == init[j];
        }
      } else {
        assert |ErrorsOf(slots)| == |ErrorsOf(init)| + 1;
      }
    }
  }
}
