/** The interest list edit: `Array.from(new Set([...interests, tag]))` to tick a tag and
    `interests.filter((v) => v !== tag)` to untick it. */
module Interests {
  import opened Json

  /** Values a JavaScript `Set` compares by content. Arrays and objects are compared by
      reference, and every array or object that `JSON.parse` builds is a separate one, so
      two of them never collapse. */
  predicate IsPrimitive(v: Value)
  {
    !v.JArray? && !v.JObject?
  }

  /** No primitive value occurs twice: what a `Set` guarantees of its contents. */
  ghost predicate NoDup(s: seq<Value>)
  {
    forall i, j :: 0 <= i < j < |s| && IsPrimitive(s[i]) ==> s[i] != s[j]
  }

  /** `Array.from(new Set(s))`: elements are inserted one by one in order; an element
      already held is skipped, so each value keeps the position of its first occurrence. */
  function Dedup(s: seq<Value>): (r: seq<Value>)
    ensures forall x :: x in r <==> x in s
    ensures |r| <= |s|
    ensures r == [] <==> s == []
  {
    if s == [] then []
    else
      var d := Dedup(s[..|s| - 1]);
      var x := s[|s| - 1];
      assert s == s[..|s| - 1] + [x];
      if IsPrimitive(x) && x in d then d else d + [x]
  }

  /** `s.filter((v) => v !== tag)` for a string `tag`. */
  function Without(s: seq<Value>, tag: Value): (r: seq<Value>)
    ensures |r| <= |s|
    ensures tag !in r
  {
    if s == [] then []
    else (if s[0] == tag then [] else [s[0]]) + Without(s[1..], tag)
  }

  /** The list `handleCheckboxToggle` computes. */
  function ToggleInterests(interests: seq<Value>, tag: string, checked: bool): (r: seq<Value>)
    ensures checked ==> JString(tag) in r
    ensures !checked ==> JString(tag) !in r
  {
    if checked then
      DedupAppend(interests, JString(tag));
      Dedup(interests + [JString(tag)])
    else Without(interests, JString(tag))
  }

  lemma {:induction false} DedupNoDup(s: seq<Value>)
    ensures NoDup(Dedup(s))
  {
    if s != [] {
      var init := s[..|s| - 1];
      DedupNoDup(init);
    }
  }

  /** A list that already has no duplicates passes through the set unchanged. */
  lemma {:induction false} DedupOfNoDup(s: seq<Value>)
    requires NoDup(s)
    ensures Dedup(s) == s
  {
    if s != [] {
      var init := s[..|s| - 1];
      var x := s[|s| - 1];
      assert NoDup(init) by {
        forall i, j | 0 <= i < j < |init| && IsPrimitive(init[i])
          ensures init[i] != init[j]
        {
          assert init[i] == s[i] && init[j] == s[j];
        }
      }
      DedupOfNoDup(init);
      assert s == init + [x];
    }
  }

  /** Appending to the set: the earlier values keep their first-occurrence order and the
      new value comes last unless an equal primitive was already held. */
  lemma DedupAppend(s: seq<Value>, x: Value)
    ensures Dedup(s + [x]) == Dedup(s) + (if IsPrimitive(x) && x in s then [] else [x])
  {
    assert (s + [x])[..|s|] == s;
  }

  lemma {:induction false} WithoutMembers(s: seq<Value>, tag: Value)
    ensures forall x :: x in Without(s, tag) <==> x in s && x != tag
  {
    if s != [] {
      WithoutMembers(s[1..], tag);
      assert s == [s[0]] + s[1..];
    }
  }

  /** Untick removes every occurrence of the tag and nothing else. */
  lemma {:induction false} WithoutMultiset(s: seq<Value>, tag: Value)
    ensures multiset(Without(s, tag)) == multiset(s)[tag := 0]
  {
    if s != [] {
      var rest := s[1..];
      WithoutMultiset(rest, tag);
      assert s == [s[0]] + rest;
      assert multiset(s) == multiset{s[0]} + multiset(rest);
      if s[0] == tag {
        assert Without(s, tag) == Without(rest, tag);
        assert multiset(s)[tag := 0] == multiset(rest)[tag := 0];
      } else {
        assert Without(s, tag) == [s[0]] + Without(rest, tag);
        assert multiset(s)[tag := 0] == multiset{s[0]} + multiset(rest)[tag := 0];
      }
    }
  }

  /** The filter keeps order: it distributes over concatenation. */
  lemma {:induction false} WithoutConcat(a: seq<Value>, b: seq<Value>, tag: Value)
    ensures Without(a + b, tag) == Without(a, tag) + Without(b, tag)
  {
    if a != [] {
      WithoutConcat(a[1..], b, tag);
      assert (a + b)[1..] == a[1..] + b;
    } else {
      assert a + b == b;
    }
  }

  lemma {:induction false} WithoutAbsent(s: seq<Value>, tag: Value)
    requires tag !in s
    ensures Without(s, tag) == s
  {
    if s != [] {
      WithoutAbsent(s[1..], tag);
      assert s == [s[0]] + s[1..];
    }
  }

  lemma {:induction false} WithoutNoDup(s: seq<Value>, tag: Value)
    requires NoDup(s)
    ensures NoDup(Without(s, tag))
  {
    if s != [] {
      var t := s[1..];
      assert NoDup(t) by {
        forall i, j | 0 <= i < j < |t| && IsPrimitive(t[i])
          ensures t[i] != t[j]
        {
          assert t[i] == s[i + 1] && t[j] == s[j + 1];
        }
      }
      WithoutNoDup(t, tag);
      WithoutMembers(t, tag);
      var w := Without(t, tag);
      if s[0] != tag {
        var r := [s[0]] + w;
        forall i, j | 0 <= i < j < |r| && IsPrimitive(r[i])
          ensures r[i] != r[j]
        {
          if i == 0 {
            assert r[j] in t;
            assert s[0] !in t by {
              forall k | 0 <= k < |t| ensures t[k] != s[0] {
                assert t[k] == s[k + 1];
              }
            }
          } else {
            assert r[i] == w[i - 1] && r[j] == w[j - 1];
          }
        }
      }
    }
  }

  /** Ticking a tag: the tag is held, nothing is held twice, the members are the old
      ones plus the tag, the tag is appended only when it was absent, and a list that
      had no duplicates is otherwise left as it was. */
  lemma ToggleOn(interests: seq<Value>, tag: string)
    ensures var r := ToggleInterests(interests, tag, true);
      && JString(tag) in r
      && NoDup(r)
      && (forall x :: x in r <==> x in interests || x == JString(tag))
      && r == Dedup(interests) + (if JString(tag) in interests then [] else [JString(tag)])
      && (NoDup(interests) ==> r == if JString(tag) in interests then interests else interests + [JString(tag)])
  {
    var s := interests + [JString(tag)];
    DedupAppend(interests, JString(tag));
    DedupNoDup(s);
    if NoDup(interests) {
      DedupOfNoDup(interests);
    }
  }

  /** Unticking a tag: no occurrence of it is left, every other value keeps its count,
      and a list without duplicates stays without duplicates (order: `ToggleOffKeepsOrder`). */
  lemma ToggleOff(interests: seq<Value>, tag: string)
    ensures var r := ToggleInterests(interests, tag, false);
      && JString(tag) !in r
      && (forall x :: x in r <==> x in interests && x != JString(tag))
      && multiset(r) == multiset(interests)[JString(tag) := 0]
      && (NoDup(interests) ==> NoDup(r))
      && (JString(tag) !in interests ==> r == interests)
  {
    WithoutMembers(interests, JString(tag));
    WithoutMultiset(interests, JString(tag));
    if NoDup(interests) {
      WithoutNoDup(interests, JString(tag));
    }
    if JString(tag) !in interests {
      WithoutAbsent(interests, JString(tag));
    }
  }

  lemma WithoutOnly(t: Value)
    ensures Without([t], t) == []
  {
    assert [t][1..] == [];
  }

  /** Filtering out the tag from a list split around one occurrence of it. */
  lemma WithoutAround(before: seq<Value>, after: seq<Value>, t: Value)
    ensures Without(before + [t] + after, t) == Without(before, t) + Without(after, t)
  {
    var front := before + [t];
    WithoutConcat(front, after, t);
    WithoutConcat(before, [t], t);
    WithoutOnly(t);
    assert Without(front, t) == Without(before, t);
  }

  /** Unticking keeps the order of the other values: removing the tag from between two
      stretches gives the two stretches, each filtered, in their original order. */
  lemma ToggleOffKeepsOrder(before: seq<Value>, after: seq<Value>, tag: string)
    ensures ToggleInterests(before + [JString(tag)] + after, tag, false)
         == ToggleInterests(before, tag, false) + ToggleInterests(after, tag, false)
    ensures JString(tag) !in before && JString(tag) !in after ==>
              ToggleInterests(before + [JString(tag)] + after, tag, false) == before + after
  {
    WithoutAround(before, after, JString(tag));
    if JString(tag) !in before && JString(tag) !in after {
      WithoutAbsent(before, JString(tag));
      WithoutAbsent(after, JString(tag));
    }
  }

  /** Unticking undoes ticking a tag that a duplicate-free list did not hold. */
  lemma ToggleOnThenOff(interests: seq<Value>, tag: string)
    requires NoDup(interests) && JString(tag) !in interests
    ensures ToggleInterests(ToggleInterests(interests, tag, true), tag, false) == interests
  {
    DedupAppend(interests, JString(tag));
    DedupOfNoDup(interests);
    WithoutConcat(interests, [JString(tag)], JString(tag));
    WithoutAbsent(interests, JString(tag));
  }

  /** An engagement holding `["music"]`: ticking "coding" gives `["music", "coding"]`,
      then unticking "music" gives `["coding"]`. */
  lemma ToggleScenario()
    ensures ToggleInterests([JString("music")], "coding", true) == [JString("music"), JString("coding")]
    ensures ToggleInterests([JString("music"), JString("coding")], "music", false) == [JString("coding")]
  {
    var music, coding := JString("music"), JString("coding");
    assert [music] + [coding] == [music, coding];
    DedupAppend([music], coding);
    DedupOfNoDup([music]);
    WithoutConcat([music], [coding], music);
    WithoutOnly(music);
    WithoutAbsent([coding], music);
  }
}
