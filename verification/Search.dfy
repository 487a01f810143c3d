/** The text filter: one haystack per row, gathered from its members in whatever
    order they are met. */
module Search {
  import opened Identities
  import opened Screen
  import opened Display
  import opened Haystack

  /** Some member's text has `needle` in it. */
  predicate Searched(identities: map<int, Identity>, grouping: GroupBy, look: Look, needle: string, members: set<int>) {
    exists id :: id in members && id in identities
      && Contains(MemberText(id, identities[id], grouping, look), needle)
  }

  /** The filter as a test on a row's members alone. */
  function TextFilter(identities: map<int, Identity>, grouping: GroupBy, look: Look, filter: string): (hit: Filter)
    ensures forall k, members :: hit(k, members) == Searched(identities, grouping, look, look.lower(filter), members)
  {
    (k, members) => Searched(identities, grouping, look, look.lower(filter), members)
  }

  /** A row's haystack serves as its members' texts do, for needles without a line
      break. */
  ghost predicate HaystackOf(identities: map<int, Identity>, grouping: GroupBy, look: Look, members: set<int>,
                             text: string) {
    && WholeLines(text)
    && (forall needle :: '\n' !in needle && members != {} ==>
          (Contains(text, needle) <==> Searched(identities, grouping, look, needle, members)))
    && (members == {} ==> text == "")
  }

  ghost predicate HaystacksOver(identities: map<int, Identity>, grouping: GroupBy, look: Look, ids: set<int>,
                                haystacks: map<string, string>)
    requires ids <= identities.Keys
  {
    && haystacks.Keys == KeysOf(identities, grouping, ids)
    && (forall k :: k in haystacks ==>
          HaystackOf(identities, grouping, look, Members(identities, grouping, ids, k), haystacks[k]))
  }

  /** `haystack.push_str(..)` for a member of the row `key`. */
  function AddText(haystacks: map<string, string>, key: string, text: string): map<string, string> {
    haystacks[key := (if key in haystacks then haystacks[key] else "") + text + "\n"]
  }

  lemma NoText(identities: map<int, Identity>, grouping: GroupBy, look: Look)
    ensures HaystacksOver(identities, grouping, look, {}, map[])
    ensures HaystackOf(identities, grouping, look, {}, "")
  {
  }

  lemma VisitText(identities: map<int, Identity>, grouping: GroupBy, look: Look, members: set<int>, id: int,
                  text: string)
    requires id in identities && HaystackOf(identities, grouping, look, members, text)
    ensures HaystackOf(identities, grouping, look, members + {id},
      text + MemberText(id, identities[id], grouping, look) + "\n")
  {
    var more := MemberText(id, identities[id], grouping, look);
    hide MemberText, Contains, WholeLines;
    forall needle | '\n' !in needle
      ensures Contains(text + more + "\n", needle)
         <==> Searched(identities, grouping, look, needle, members + {id})
    {
      GatheredContains(text, more, needle);
      if members == {} {
        EmptyContains(needle, more);
      }
    }
    assert WholeLines(text + more + "\n") by { GatheredContains(text, more, ""); }
  }

  /** An empty text holds the empty needle only, which is everywhere. */
  lemma EmptyContains(needle: string, text: string)
    ensures Contains("", needle) ==> Contains(text, needle)
  {
    if Contains("", needle) {
      assert FoundAt(text, needle, 0);
    }
  }

  lemma VisitHaystacks(identities: map<int, Identity>, grouping: GroupBy, look: Look, ids: set<int>, id: int,
                       haystacks: map<string, string>)
    requires ids + {id} <= identities.Keys
    requires HaystacksOver(identities, grouping, look, ids, haystacks)
    ensures HaystacksOver(identities, grouping, look, ids + {id},
      AddText(haystacks, GroupKey(id, identities[id], grouping), MemberText(id, identities[id], grouping, look)))
  {
    var key, text := GroupKey(id, identities[id], grouping), MemberText(id, identities[id], grouping, look);
    var before := Members(identities, grouping, ids, key);
    var was := if key in haystacks then haystacks[key] else "";
    hide GroupKey, MemberText;
    VisitKeys(identities, grouping, ids, id);
    assert HaystackOf(identities, grouping, look, before, was) by {
      NoText(identities, grouping, look);
      hide HaystackOf;
    }
    hide HaystackOf, Members, KeysOf;
    VisitText(identities, grouping, look, before, id, was);
    VisitOthers(identities, grouping, look, ids, id, haystacks, key, was + text + "\n");
  }

  lemma VisitOthers(identities: map<int, Identity>, grouping: GroupBy, look: Look, ids: set<int>, id: int,
                    haystacks: map<string, string>, key: string, text: string)
    requires ids + {id} <= identities.Keys && key == GroupKey(id, identities[id], grouping)
    requires HaystacksOver(identities, grouping, look, ids, haystacks)
    requires HaystackOf(identities, grouping, look, Members(identities, grouping, ids, key) + {id}, text)
    ensures HaystacksOver(identities, grouping, look, ids + {id}, haystacks[key := text])
  {
    VisitKeys(identities, grouping, ids, id);
    hide HaystackOf, GroupKey, Members, KeysOf;
    forall k | k in haystacks[key := text]
      ensures HaystackOf(identities, grouping, look, Members(identities, grouping, ids + {id}, k),
                         haystacks[key := text][k])
    {
      if k != key {
        assert Members(identities, grouping, ids + {id}, k) == Members(identities, grouping, ids, k);
      }
    }
  }
}
