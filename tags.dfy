/** The list-toggle rule that the setup wizard's interest picker and goal picker
    share: pressing a tag that is in the list filters every copy of it out,
    pressing one that is not appends it at the end. */
module Tags {

  /** No tag occurs twice. */
  predicate Distinct(tags: seq<string>) {
    forall i, j :: 0 <= i < j < |tags| ==> tags[i] != tags[j]
  }

  /** `tags.filter(x => x !== t)`: every copy of `t` dropped, the other tags
      kept with their multiplicities, in their order. */
  function Remove(tags: seq<string>, t: string): (r: seq<string>)
    ensures t !in r
    ensures |r| <= |tags|
    ensures forall u :: u != t ==> multiset(r)[u] == multiset(tags)[u]
    ensures forall u :: u != t ==> (u in r <==> u in tags)
    ensures t !in tags ==> r == tags
  {
    if tags == [] then []
    else
      assert tags == [tags[0]] + tags[1..];
      if tags[0] == t then Remove(tags[1..], t)
      else [tags[0]] + Remove(tags[1..], t)
  }

  /** Filtering distributes over concatenation. */
  lemma {:induction false} RemoveAppend(a: seq<string>, b: seq<string>, t: string)
    ensures Remove(a + b, t) == Remove(a, t) + Remove(b, t)
  {
    if a == [] {
      assert a + b == b;
    } else {
      assert (a + b)[0] == a[0] && (a + b)[1..] == a[1..] + b;
      RemoveAppend(a[1..], b, t);
    }
  }

  /** Filtering a list without duplicates leaves one without duplicates. */
  lemma {:induction false} RemoveKeepsDistinct(tags: seq<string>, t: string)
    requires Distinct(tags)
    ensures Distinct(Remove(tags, t))
  {
    if tags != [] {
      var rest := tags[1..];
      assert Distinct(rest);
      RemoveKeepsDistinct(rest, t);
      if tags[0] != t {
        assert tags[0] !in rest;
        assert multiset(rest)[tags[0]] == 0;
        assert tags[0] !in Remove(rest, t);
      }
    }
  }

  /** The click handler of an interest or goal button. */
  function Toggle(tags: seq<string>, t: string): (r: seq<string>)
    ensures t in r <==> t !in tags
    ensures t in tags ==> r == Remove(tags, t)
    ensures t !in tags ==> r == tags + [t]
    ensures forall u :: u != t ==> (u in r <==> u in tags)
  {
    if t in tags then Remove(tags, t) else tags + [t]
  }

  /** Membership of every tag after a toggle: `t` flips, the others stay. */
  lemma ToggleMembership(tags: seq<string>, t: string, u: string)
    ensures u in Toggle(tags, t) <==> (if u == t then u !in tags else u in tags)
  {
  }

  /** Pressing a tag twice: an absent tag leaves the list exactly as it was;
      a present tag ends up once, at the end of the filtered list. */
  lemma ToggleTwice(tags: seq<string>, t: string)
    ensures Toggle(Toggle(tags, t), t) == if t in tags then Remove(tags, t) + [t] else tags
  {
    if t !in tags {
      RemoveAppend(tags, [t], t);
      assert Remove([t], t) == [];
    }
  }

  /** Toggling never introduces a duplicate. */
  lemma ToggleKeepsDistinct(tags: seq<string>, t: string)
    requires Distinct(tags)
    ensures Distinct(Toggle(tags, t))
  {
    if t in tags {
      RemoveKeepsDistinct(tags, t);
    }
  }
}
