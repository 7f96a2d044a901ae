/**
 * The selected-products list as values: lookup by id (`findIndex`), the toggle done
 * when a product card is clicked and the filter done by a "Remove" button.
 */
module Selection {
  import opened Sequences

  /** What the store keeps of a product: its id and the name shown on its card. */
  datatype SelectedProduct = SelectedProduct(id: string, name: string)

  predicate HasId(s: seq<SelectedProduct>, id: string) {
    exists k :: 0 <= k < |s| && s[k].id == id
  }

  /** The store's invariant: no id appears twice. */
  predicate UniqueIds(s: seq<SelectedProduct>) {
    forall i, j :: 0 <= i < j < |s| ==> s[i].id != s[j].id
  }

  /** `s.findIndex(p => p.id === id)`: the first position holding `id`, or -1. */
  function IndexOf(s: seq<SelectedProduct>, id: string): (r: int)
    ensures -1 <= r < |s|
    ensures r == -1 <==> !HasId(s, id)
    ensures 0 <= r ==> s[r].id == id && forall k :: 0 <= k < r ==> s[k].id != id
  {
    if s == [] then -1
    else if s[0].id == id then 0
    else
      var r := IndexOf(s[1..], id);
      assert forall k :: 1 <= k < |s| ==> s[k] == s[1..][k - 1];
      if r == -1 then -1 else r + 1
  }

  /** Click on a card: push `{id, name}` when the id is absent, otherwise splice out the entry found. */
  function Toggled(s: seq<SelectedProduct>, id: string, name: string): seq<SelectedProduct> {
    var i := IndexOf(s, id);
    if i == -1 then s + [SelectedProduct(id, name)] else s[..i] + s[i + 1..]
  }

  /** Click on a "Remove" button: `s.filter(p => p.id !== id)`. */
  function WithoutId(s: seq<SelectedProduct>, id: string): (r: seq<SelectedProduct>)
    ensures IsSubsequence(r, s)
  {
    if s == [] then []
    else
      var rest := WithoutId(s[1..], id);
      if s[0].id != id then [s[0]] + rest else rest
  }

  /** The entries that survive a removal are exactly those with another id. */
  lemma {:induction false} WithoutIdMembers(s: seq<SelectedProduct>, id: string)
    ensures forall p :: p in WithoutId(s, id) <==> p in s && p.id != id
  {
    if s != [] {
      WithoutIdMembers(s[1..], id);
      assert forall p :: p in s <==> p == s[0] || p in s[1..];
    }
  }

  lemma HasIdIffIn(s: seq<SelectedProduct>, id: string)
    ensures HasId(s, id) <==> exists p :: p in s && p.id == id
  {
    if HasId(s, id) {
      var k :| 0 <= k < |s| && s[k].id == id;
      assert s[k] in s;
    }
  }

  /** Toggling an absent id appends exactly `{id, name}` at the end. */
  lemma ToggleAbsentAppends(s: seq<SelectedProduct>, id: string, name: string)
    requires !HasId(s, id)
    ensures Toggled(s, id, name) == s + [SelectedProduct(id, name)]
  {
  }

  /**
   * Toggling a present id removes exactly the entry holding it and keeps the others in
   * order; in a store without duplicates that is the same as the "Remove" button.
   */
  lemma TogglePresentRemoves(s: seq<SelectedProduct>, id: string, name: string)
    requires UniqueIds(s) && HasId(s, id)
    ensures var i := IndexOf(s, id);
            Toggled(s, id, name) == s[..i] + s[i + 1..]
            && |Toggled(s, id, name)| == |s| - 1
            && Toggled(s, id, name) == WithoutId(s, id)
  {
    var i := IndexOf(s, id);
    WithoutIdSplit(s, i, id);
  }

  lemma UniqueTail(s: seq<SelectedProduct>)
    requires UniqueIds(s) && s != []
    ensures UniqueIds(s[1..])
    ensures forall p :: p in s[1..] ==> p.id != s[0].id
  {
    forall i, j | 0 <= i < j < |s[1..]| ensures s[1..][i].id != s[1..][j].id {
      assert s[1..][i] == s[i + 1] && s[1..][j] == s[j + 1];
    }
    forall p | p in s[1..] ensures p.id != s[0].id {
      var k :| 0 <= k < |s[1..]| && s[1..][k] == p;
      assert s[k + 1] == p;
    }
  }

  /** With unique ids, filtering out the id of entry `i` is the same as splicing out entry `i`. */
  lemma {:induction false} WithoutIdSplit(s: seq<SelectedProduct>, i: int, id: string)
    requires UniqueIds(s) && 0 <= i < |s| && s[i].id == id
    ensures WithoutId(s, id) == s[..i] + s[i + 1..]
  {
    UniqueTail(s);
    if i == 0 {
      assert !HasId(s[1..], id) by {
        forall k | 0 <= k < |s[1..]| ensures s[1..][k].id != id {
          assert s[1..][k] in s[1..];
        }
      }
      WithoutIdAbsent(s[1..], id);
    } else {
      assert s[0].id != id;
      assert s[1..][i - 1] == s[i];
      WithoutIdSplit(s[1..], i - 1, id);
      assert WithoutId(s, id) == [s[0]] + WithoutId(s[1..], id);
      assert s[..i] == [s[0]] + s[1..][..i - 1];
      assert s[i + 1..] == s[1..][i..];
    }
  }

  /** Removing an id that is not selected is a no-op. */
  lemma {:induction false} WithoutIdAbsent(s: seq<SelectedProduct>, id: string)
    requires !HasId(s, id)
    ensures WithoutId(s, id) == s
  {
    if s != [] {
      assert s[0].id != id;
      assert !HasId(s[1..], id) by {
        forall k | 0 <= k < |s[1..]| ensures s[1..][k].id != id {
          assert s[1..][k] == s[k + 1];
        }
      }
      WithoutIdAbsent(s[1..], id);
      assert [s[0]] + s[1..] == s;
    }
  }

  /** After removal no entry holds the id, and removing again changes nothing. */
  lemma RemoveIdempotent(s: seq<SelectedProduct>, id: string)
    ensures !HasId(WithoutId(s, id), id)
    ensures WithoutId(WithoutId(s, id), id) == WithoutId(s, id)
  {
    var r := WithoutId(s, id);
    WithoutIdMembers(s, id);
    assert !HasId(r, id) by {
      forall k | 0 <= k < |r| ensures r[k].id != id {
        assert r[k] in r;
      }
    }
    WithoutIdAbsent(r, id);
  }

  lemma {:induction false} SubsequenceKeepsUnique(r: seq<SelectedProduct>, s: seq<SelectedProduct>)
    requires IsSubsequence(r, s) && UniqueIds(s)
    ensures UniqueIds(r)
    decreases |s|
  {
    if r != [] && s != [] {
      UniqueTail(s);
      if r[0] == s[0] && IsSubsequence(r[1..], s[1..]) {
        SubsequenceKeepsUnique(r[1..], s[1..]);
        SubsequenceMembers(r[1..], s[1..]);
        forall i, j | 0 <= i < j < |r| ensures r[i].id != r[j].id {
          assert r[j] == r[1..][j - 1];
          if i > 0 {
            assert r[i] == r[1..][i - 1];
          }
        }
      } else {
        SubsequenceKeepsUnique(r, s[1..]);
      }
    }
  }

  lemma {:induction false} SubsequenceMembers<T>(r: seq<T>, s: seq<T>)
    requires IsSubsequence(r, s)
    ensures forall x :: x in r ==> x in s
    decreases |s|
  {
    if r != [] && s != [] {
      if r[0] == s[0] && IsSubsequence(r[1..], s[1..]) {
        SubsequenceMembers(r[1..], s[1..]);
        assert forall x :: x in r ==> x == r[0] || x in r[1..];
      } else {
        SubsequenceMembers(r, s[1..]);
      }
    }
  }

  /** The "Remove" button keeps the ids unique. */
  lemma RemoveKeepsUnique(s: seq<SelectedProduct>, id: string)
    requires UniqueIds(s)
    ensures UniqueIds(WithoutId(s, id))
  {
    SubsequenceKeepsUnique(WithoutId(s, id), s);
  }

  /** A toggle keeps the ids unique. */
  lemma ToggleKeepsUnique(s: seq<SelectedProduct>, id: string, name: string)
    requires UniqueIds(s)
    ensures UniqueIds(Toggled(s, id, name))
  {
    if HasId(s, id) {
      TogglePresentRemoves(s, id, name);
      RemoveKeepsUnique(s, id);
    }
  }

  /** A toggle flips the membership of its own id and leaves every other id's membership alone. */
  lemma ToggleMembership(s: seq<SelectedProduct>, id: string, name: string, other: string)
    requires UniqueIds(s)
    ensures HasId(Toggled(s, id, name), other) == (if other == id then !HasId(s, id) else HasId(s, other))
  {
    var t := Toggled(s, id, name);
    HasIdIffIn(s, other);
    HasIdIffIn(t, other);
    if HasId(s, id) {
      TogglePresentRemoves(s, id, name);
      WithoutIdMembers(s, id);
      assert other == id ==> !HasId(t, other);
    } else {
      assert t == s + [SelectedProduct(id, name)];
      assert t[|s|] == SelectedProduct(id, name);
      assert forall p :: p in t <==> p in s || p == SelectedProduct(id, name);
    }
  }

  /** Toggling an absent id twice gives back the original list. */
  lemma ToggleTwiceRestores(s: seq<SelectedProduct>, id: string, name: string, name': string)
    requires !HasId(s, id)
    ensures Toggled(Toggled(s, id, name), id, name') == s
  {
    var t := s + [SelectedProduct(id, name)];
    assert t[|s|].id == id;
    var i := IndexOf(t, id);
    assert i == |s|;
    assert t[..i] == s;
  }

  /** The selection after a run of card clicks, one `(id, name)` per click. */
  function ApplyToggles(s: seq<SelectedProduct>, clicks: seq<(string, string)>): seq<SelectedProduct>
    decreases |clicks|
  {
    if clicks == [] then s
    else ApplyToggles(Toggled(s, clicks[0].0, clicks[0].1), clicks[1..])
  }

  /** Whether an odd number of the clicks were on `id`. */
  function OddClicksOn(clicks: seq<(string, string)>, id: string): bool {
    if clicks == [] then false
    else (clicks[0].0 == id) != OddClicksOn(clicks[1..], id)
  }

  /**
   * Over any run of clicks an id ends up selected exactly when it started selected
   * and was clicked an even number of times, or started absent and was clicked an odd
   * number of times; the ids stay unique throughout.
   */
  lemma {:induction false} ToggleParity(s: seq<SelectedProduct>, clicks: seq<(string, string)>, id: string)
    requires UniqueIds(s)
    ensures UniqueIds(ApplyToggles(s, clicks))
    ensures HasId(ApplyToggles(s, clicks), id) == (HasId(s, id) != OddClicksOn(clicks, id))
    decreases |clicks|
  {
    if clicks != [] {
      var (clicked, name) := clicks[0];
      var t := Toggled(s, clicked, name);
      assert ApplyToggles(s, clicks) == ApplyToggles(t, clicks[1..]);
      ToggleKeepsUnique(s, clicked, name);
      ToggleMembership(s, clicked, name, id);
      ToggleParity(t, clicks[1..], id);
    }
  }
}
