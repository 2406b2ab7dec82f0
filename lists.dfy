/** The array operations the route handlers apply to embedded lists:
    `filter` that drops one value, the includes/filter/push toggle used for
    likes and follows, the owner filter and the findIndex/splice pair used
    on comments. */
module Lists {
  import opened Types

  /** `s.filter(y => y != x)`: every occurrence of `x` dropped, the rest kept
      in order. */
  function Without(s: seq<Id>, x: Id): (r: seq<Id>)
    ensures forall y :: y in r <==> y in s && y != x
    ensures |r| == |s| - multiset(s)[x]
    ensures |r| <= |s|
  {
    if s == [] then []
    else
      assert s == [s[0]] + s[1..];
      if s[0] == x then Without(s[1..], x) else [s[0]] + Without(s[1..], x)
  }

  /** Filtering out a value that is not there changes nothing. */
  lemma {:induction false} WithoutAbsent(s: seq<Id>, x: Id)
    requires x !in s
    ensures Without(s, x) == s
  {
    if s != [] {
      assert s[0] != x;
      WithoutAbsent(s[1..], x);
    }
  }

  /** Filtering distributes over concatenation. */
  lemma {:induction false} WithoutAppend(s: seq<Id>, t: seq<Id>, x: Id)
    ensures Without(s + t, x) == Without(s, x) + Without(t, x)
  {
    if s == [] {
      assert s + t == t;
    } else {
      assert (s + t)[0] == s[0];
      assert (s + t)[1..] == s[1..] + t;
      WithoutAppend(s[1..], t, x);
    }
  }

  /** The toggle of likes and follows: if `x` is present every occurrence is
      removed, otherwise `x` is pushed at the end. */
  function Toggle(s: seq<Id>, x: Id): (r: seq<Id>)
    ensures x in r <==> x !in s
    ensures forall y :: y != x ==> (y in r <==> y in s)
    ensures x !in s ==> r == s + [x]
    ensures x in s ==> |r| < |s| && r == Without(s, x)
  {
    if x in s then Without(s, x) else s + [x]
  }

  /** Toggling twice restores membership of `x`. When `x` was absent the list
      comes back exactly; when it was present its occurrences collapse into
      one at the end. */
  lemma ToggleTwice(s: seq<Id>, x: Id)
    ensures x in Toggle(Toggle(s, x), x) <==> x in s
    ensures x !in s ==> Toggle(Toggle(s, x), x) == s
    ensures x in s ==> Toggle(Toggle(s, x), x) == Without(s, x) + [x]
  {
    if x !in s {
      WithoutAppend(s, [x], x);
      WithoutAbsent(s, x);
      assert Without([x], x) == [];
    }
  }

  /** `comments.filter(c => c._id !== cid || c.user !== actor)`: drops the
      comments that have this id AND were written by `actor`. */
  function KeepComments(cs: seq<Comment>, cid: Id, actor: Id): (r: seq<Comment>)
    ensures forall c :: c in r <==> c in cs && (c.id != cid || c.user != actor)
    ensures |r| <= |cs|
  {
    if cs == [] then []
    else if cs[0].id == cid && cs[0].user == actor then KeepComments(cs[1..], cid, actor)
    else [cs[0]] + KeepComments(cs[1..], cid, actor)
  }

  /** When `actor` wrote no comment with that id the filter is the identity:
      a non-owner's delete request is a silent no-op. */
  lemma {:induction false} KeepCommentsNonOwner(cs: seq<Comment>, cid: Id, actor: Id)
    requires forall i :: 0 <= i < |cs| ==> cs[i].id != cid || cs[i].user != actor
    ensures KeepComments(cs, cid, actor) == cs
  {
    if cs != [] {
      KeepCommentsNonOwner(cs[1..], cid, actor);
    }
  }

  /** `comments.findIndex(c => c._id === cid)`: the first index holding that
      id, or -1 when there is none. */
  function FindComment(cs: seq<Comment>, cid: Id): (r: int)
    ensures -1 <= r < |cs|
    ensures r == -1 <==> forall i :: 0 <= i < |cs| ==> cs[i].id != cid
    ensures r >= 0 ==> cs[r].id == cid && forall i :: 0 <= i < r ==> cs[i].id != cid
  {
    if cs == [] then -1
    else if cs[0].id == cid then 0
    else
      var k := FindComment(cs[1..], cid);
      if k == -1 then -1 else k + 1
  }

  /** `splice(k, 1)`: the list without its k-th element. */
  function RemoveAt<T>(s: seq<T>, k: nat): (r: seq<T>)
    requires k < |s|
    ensures |r| == |s| - 1
    ensures forall i :: 0 <= i < k ==> r[i] == s[i]
    ensures forall i :: k <= i < |r| ==> r[i] == s[i + 1]
  {
    s[..k] + s[k + 1..]
  }

  /** Splicing out one element leaves exactly the other elements: the multiset
      loses one copy of `s[k]` and nothing else. */
  lemma RemoveAtMultiset<T>(s: seq<T>, k: nat)
    requires k < |s|
    ensures multiset(RemoveAt(s, k)) + multiset{s[k]} == multiset(s)
  {
    assert s == s[..k] + [s[k]] + s[k + 1..];
  }
}
