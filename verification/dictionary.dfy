/**
 * Narrowing the anti-pattern master dictionary to the patterns the analyzer
 * reported (`extract_relevant_dictionary` in main-app/src/main.py).
 *
 * The dictionary is a Python `dict`, iterated in insertion order; it is the
 * list of its `(pattern name, explanation block)` items.
 */
module Dictionary {
  import opened Text

  type Master = seq<(string, string)>

  const NothingRelevant := "特になし"

  /** The blocks whose pattern name occurs in `detected`, in dictionary order. */
  function Relevant(master: Master, detected: string): seq<string> {
    if master == [] then []
    else
      var last := master[|master| - 1];
      Relevant(master[..|master| - 1], detected) + (if Contains(detected, last.0) then [last.1] else [])
  }

  function ExtractRelevant(master: Master, detected: string): string {
    if detected == "" || master == [] then NothingRelevant
    else
      var texts := Relevant(master, detected);
      if texts != [] then Join("\n\n", texts) else NothingRelevant
  }

  /** The pattern names that occur in `detected`, in dictionary order. */
  function Hits(master: Master, detected: string): seq<string> {
    if master == [] then []
    else
      var last := master[|master| - 1];
      Hits(master[..|master| - 1], detected) + (if Contains(detected, last.0) then [last.0] else [])
  }

  /**
   * `Relevant` keeps exactly the blocks whose key occurs in the text: one
   * block per hit, paired with the hit's key, in dictionary order.
   */
  lemma {:induction false} RelevantMatchesHits(master: Master, detected: string)
    ensures |Relevant(master, detected)| == |Hits(master, detected)|
    ensures forall k :: 0 <= k < |Hits(master, detected)| ==>
      (Hits(master, detected)[k], Relevant(master, detected)[k]) in master && Contains(detected, Hits(master, detected)[k])
  {
    if master != [] {
      var init := master[..|master| - 1];
      RelevantMatchesHits(init, detected);
      forall p | p in init ensures p in master {
        var i :| 0 <= i < |init| && init[i] == p;
        assert master[i] == p;
      }
    }
  }

  /** An item whose key occurs in the text contributes its block. */
  lemma {:induction false} HitIsKept(master: Master, detected: string, i: nat)
    requires i < |master| && Contains(detected, master[i].0)
    ensures master[i].1 in Relevant(master, detected)
  {
    var init := master[..|master| - 1];
    if i < |master| - 1 {
      assert init[i] == master[i];
      HitIsKept(init, detected, i);
    }
  }

  lemma {:induction false} NoHitNothingKept(master: Master, detected: string)
    requires forall i :: 0 <= i < |master| ==> !Contains(detected, master[i].0)
    ensures Relevant(master, detected) == []
  {
    if master != [] {
      var init := master[..|master| - 1];
      forall i | 0 <= i < |init| ensures !Contains(detected, init[i].0) {
        assert init[i] == master[i];
      }
      NoHitNothingKept(init, detected);
    }
  }

  /**
   * When every block of the dictionary starts with `■` (as the loaded master
   * blocks do), the result is "特になし" exactly when the text is empty or no
   * pattern name occurs in it.
   */
  lemma SentinelIff(master: Master, detected: string)
    requires forall i :: 0 <= i < |master| ==> StartsWith(master[i].1, "■")
    ensures ExtractRelevant(master, detected) == NothingRelevant <==>
      detected == "" || forall i :: 0 <= i < |master| ==> !Contains(detected, master[i].0)
  {
    var texts := Relevant(master, detected);
    if detected != "" && exists i :: 0 <= i < |master| && Contains(detected, master[i].0) {
      var i :| 0 <= i < |master| && Contains(detected, master[i].0);
      HitIsKept(master, detected, i);
      RelevantMatchesHits(master, detected);
      var t0 := texts[0];
      var j :| 0 <= j < |master| && master[j] == (Hits(master, detected)[0], t0);
      assert StartsWith(t0, "■");
      JoinStartsWith("\n\n", texts);
      assert ExtractRelevant(master, detected)[0] == '■';
    } else if detected != "" {
      NoHitNothingKept(master, detected);
    }
  }
}
