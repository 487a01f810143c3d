/** Searching the lines gathered from several texts. */
module Haystack {

  predicate FoundAt(text: string, needle: string, i: nat) {
    i + |needle| <= |text| && text[i..i + |needle|] == needle
  }

  predicate Contains(text: string, needle: string) {
    exists i: nat :: i <= |text| && FoundAt(text, needle, i)
  }

  /** Whole lines only. */
  predicate WholeLines(text: string) {
    text == "" || text[|text| - 1] == '\n'
  }

  lemma ContainsIn(left: string, text: string, right: string, needle: string)
    requires Contains(text, needle)
    ensures Contains(left + text + right, needle)
  {
    var i: nat :| i <= |text| && FoundAt(text, needle, i);
    var all := left + text + right;
    assert all[|left| + i..|left| + i + |needle|] == needle;
    assert FoundAt(all, needle, |left| + i);
  }

  /** What has no line break is found in gathered lines if and only if it is found
      in one of the texts they were gathered from. */
  lemma GatheredContains(text: string, more: string, needle: string)
    requires WholeLines(text) && '\n' !in needle
    ensures WholeLines(text + more + "\n")
    ensures Contains(text + more + "\n", needle) <==> Contains(text, needle) || Contains(more, needle)
  {
    var all := text + more + "\n";
    if Contains(text, needle) {
      ContainsIn("", text, more + "\n", needle);
      assert "" + text + (more + "\n") == all;
    }
    if Contains(more, needle) {
      ContainsIn(text, more, "\n", needle);
    }
    if Contains(all, needle) {
      WhereFound(text, more, needle);
    }
  }

  lemma NoBreakInside(text: string, needle: string, i: nat, k: nat)
    requires FoundAt(text, needle, i) && '\n' !in needle && i <= k < i + |needle|
    ensures text[k] != '\n'
  {
    assert text[k] == text[i..i + |needle|][k - i];
  }

  lemma WhereFound(text: string, more: string, needle: string)
    requires WholeLines(text) && '\n' !in needle && Contains(text + more + "\n", needle)
    ensures Contains(text, needle) || Contains(more, needle)
  {
    var all := text + more + "\n";
    var i: nat :| i <= |all| && FoundAt(all, needle, i);
    if needle == "" {
      assert FoundAt(text, needle, 0);
    } else if i + |needle| <= |text| {
      assert text[i..i + |needle|] == all[i..i + |needle|];
      assert FoundAt(text, needle, i);
    } else if |text| <= i {
      NoBreakInside(all, needle, i, i + |needle| - 1);
      var k := i - |text|;
      assert more[k..k + |needle|] == all[i..i + |needle|];
      assert FoundAt(more, needle, k);
    } else {
      NoBreakInside(all, needle, i, |text| - 1);
    }
  }
}
