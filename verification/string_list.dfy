/**
 * The identifier list of one directory and its snapshot cursor
 * (src/dirs.rs, lines 42-112 and 152-173).
 *
 * The read-write lock around the list only makes each call atomic, so
 * every call here is one sequential step. A cursor copies the list when it
 * is created; that copy plays the part of the read guard the cursor holds
 * for its whole life, and later changes to the list never reach it.
 */
module StringLists {
  import opened Wrappers

  /** The list with the first occurrence of `x` taken out, if there is one. */
  function RemoveFirst(s: seq<string>, x: string): (r: seq<string>)
  {
    if s == [] then []
    else if s[0] == x then s[1..]
    else [s[0]] + RemoveFirst(s[1..], x)
  }

  /** Removing an identifier that is not present changes nothing. */
  lemma {:induction false} RemoveFirstAbsent(s: seq<string>, x: string)
    requires x !in s
    ensures RemoveFirst(s, x) == s
  {
    if s != [] {
      RemoveFirstAbsent(s[1..], x);
    }
  }

  /**
   * When `pos` is the first position holding `x`, exactly that element is
   * removed and all the others keep their order.
   */
  lemma {:induction false} RemoveFirstAt(s: seq<string>, x: string, pos: nat)
    requires pos < |s| && s[pos] == x && x !in s[..pos]
    ensures RemoveFirst(s, x) == s[..pos] + s[pos + 1..]
  {
    if pos > 0 {
      assert s[0] in s[..pos];
      assert s[1..][..pos - 1] == s[1..pos];
      RemoveFirstAt(s[1..], x, pos - 1);
    }
  }

  /** One occurrence of `x` goes, if there was one; nothing else changes. */
  lemma {:induction false} RemoveFirstMultiset(s: seq<string>, x: string)
    ensures multiset(RemoveFirst(s, x)) == multiset(s) - multiset{x}
  {
    if s != [] {
      assert s == [s[0]] + s[1..];
      if s[0] != x {
        RemoveFirstMultiset(s[1..], x);
      }
    }
  }

  /**
   * After a removal the identifier is still listed exactly when it was
   * listed more than once: removal does not undo duplicate additions.
   */
  lemma RemoveFirstStillContains(s: seq<string>, x: string)
    ensures x in RemoveFirst(s, x) <==> multiset(s)[x] >= 2
  {
    RemoveFirstMultiset(s, x);
    assert x in RemoveFirst(s, x) <==> x in multiset(RemoveFirst(s, x));
  }

  /** Removing what was just appended restores the list, when it was new. */
  lemma {:induction false} RemoveFirstAfterAppend(s: seq<string>, x: string)
    requires x !in s
    ensures RemoveFirst(s + [x], x) == s
  {
    assert (s + [x])[..|s|] == s;
    RemoveFirstAt(s + [x], x, |s|);
    assert (s + [x])[|s| + 1..] == [];
  }

  /** A cursor over a snapshot of the list (`StringIter`). */
  class StringIter {
    /** The list as it was when the cursor was created. */
    const snapshot: seq<string>
    /** The position of the next element to yield. */
    var current: nat

    ghost predicate Valid()
      reads this
    {
      current <= |snapshot|
    }

    /** What is left to yield. */
    ghost function Remaining(): seq<string>
      reads this
      requires Valid()
    {
      snapshot[current..]
    }

    constructor (snapshot: seq<string>)
      ensures Valid() && this.snapshot == snapshot && Remaining() == snapshot
    {
      this.snapshot := snapshot;
      current := 0;
    }

    /**
     * `Iterator::next`: yields the next element of the snapshot and moves
     * past it; once the snapshot is used up every call yields nothing.
     */
    method Next() returns (r: Option<string>)
      requires Valid()
      modifies this
      ensures Valid()
      ensures r.None? <==> old(Remaining()) == []
      ensures r.None? ==> Remaining() == []
      ensures r.Some? ==> r.value == old(Remaining())[0] && Remaining() == old(Remaining())[1..]
    {
      if current == |snapshot| {
        r := None;
      } else {
        r := Some(snapshot[current]);
        current := current + 1;
      }
    }

    /** `ExactSizeIterator::len`: the number of elements still to come. */
    function Len(): (n: nat)
      reads this
      requires Valid()
      ensures n == |Remaining()|
    {
      |snapshot| - current
    }

    /** `Iterator::size_hint`: exact lower and upper bounds. */
    function SizeHint(): (hint: (nat, Option<nat>))
      reads this
      requires Valid()
      ensures hint.0 == |Remaining()| && hint.1 == Some(|Remaining()|)
    {
      (Len(), Some(Len()))
    }
  }

  /** The identifier list (`StringList`), changed in place. */
  class StringList {
    var list: seq<string>

    /** `From<Vec<Box<str>>>`: a list holding the given identifiers. */
    constructor (vec: seq<string>)
      ensures list == vec
    {
      list := vec;
    }

    /**
     * `into_iter`: a cursor over a copy of the current list, starting at
     * its first element.
     */
    method IntoIter() returns (it: StringIter)
      ensures fresh(it) && it.Valid()
      ensures it.snapshot == list && it.Remaining() == list
    {
      it := new StringIter(list);
    }
  }
}
