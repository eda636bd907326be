/** `Chain`: the double-ended, exact-size iterator over an error's causes.
    It is a cursor with a front and a back index into the cause sequence;
    `next` takes from the front, `next_back` from the back, and what lies
    between the two indices is what is left to yield. */
module Chains {
  import opened Wrappers
  import opened Text

  class Chain<T> {
    /** The causes of the error this iterator borrows, outermost first. */
    const items: seq<T>
    var front: nat
    var back: nat

    ghost predicate Valid()
      reads this
    {
      front <= back <= |items|
    }

    /** What the iterator has still to yield, in forward order. */
    function Remaining(): seq<T>
      reads this
      requires Valid()
    {
      items[front..back]
    }

    /** `Chain::default()`: an iterator with nothing to yield. */
    constructor Default()
      ensures Valid() && Remaining() == []
    {
      items := [];
      front, back := 0, 0;
    }

    /** An iterator over the whole cause sequence, as `Error::chain` returns it. */
    constructor Over(causes: seq<T>)
      ensures Valid() && items == causes && Remaining() == causes
    {
      items := causes;
      front, back := 0, |causes|;
    }

    /** A copy positioned where `other` is. */
    constructor Copy(other: Chain<T>)
      requires other.Valid()
      ensures Valid() && Remaining() == other.Remaining()
    {
      items := other.items;
      front, back := other.front, other.back;
    }

    /** `Iterator::next`: the outermost cause not yet yielded. */
    method Next() returns (r: Option<T>)
      requires Valid()
      modifies this
      ensures Valid()
      ensures old(Remaining()) == [] ==> r == None && Remaining() == []
      ensures old(Remaining()) != [] ==>
        r == Some(old(Remaining())[0]) && Remaining() == old(Remaining())[1..]
    {
      if front < back {
        r := Some(items[front]);
        front := front + 1;
      } else {
        r := None;
      }
    }

    /** `DoubleEndedIterator::next_back`: the innermost cause not yet yielded. */
    method NextBack() returns (r: Option<T>)
      requires Valid()
      modifies this
      ensures Valid()
      ensures old(Remaining()) == [] ==> r == None && Remaining() == []
      ensures old(Remaining()) != [] ==>
        r == Some(old(Remaining())[|old(Remaining())| - 1])
        && Remaining() == old(Remaining())[..|old(Remaining())| - 1]
    {
      if front < back {
        back := back - 1;
        r := Some(items[back]);
      } else {
        r := None;
      }
    }

    /** `ExactSizeIterator::len`: how many items either end can still yield. */
    function Len(): (n: nat)
      reads this
      requires Valid()
      ensures n == |Remaining()|
      ensures n == 0 <==> Remaining() == []
    {
      back - front
    }

    /** `Iterator::size_hint`: exact, both bounds equal to what is left. */
    function SizeHint(): (hint: (nat, Option<nat>))
      reads this
      requires Valid()
      ensures hint.0 == |Remaining()| && hint.1 == Some(|Remaining()|)
    {
      (Len(), Some(Len()))
    }

    /** `Clone::clone`: a fresh iterator that yields what this one would,
        without disturbing this one. */
    method Clone() returns (c: Chain<T>)
      requires Valid()
      ensures fresh(c) && c.Valid() && c.Remaining() == Remaining()
    {
      c := new Chain.Copy(this);
    }
  }

  /** Forward iteration to exhaustion yields every remaining item, outermost first. */
  method Collect<T>(c: Chain<T>) returns (out: seq<T>)
    requires c.Valid()
    modifies c
    ensures c.Valid() && c.Remaining() == []
    ensures out == old(c.Remaining())
  {
    out := [];
    while true
      invariant c.Valid()
      invariant out + c.Remaining() == old(c.Remaining())
      decreases |c.Remaining()|
    {
      var item := c.Next();
      if item.None? {
        break;
      }
      out := out + [item.value];
    }
  }

  /** Iteration through `rev()` yields every remaining item, innermost first. */
  method CollectBack<T>(c: Chain<T>) returns (out: seq<T>)
    requires c.Valid()
    modifies c
    ensures c.Valid() && c.Remaining() == []
    ensures out == Reverse(old(c.Remaining()))
  {
    out := [];
    while true
      invariant c.Valid()
      invariant c.Remaining() + Reverse(out) == old(c.Remaining())
      decreases |c.Remaining()|
    {
      var item := c.NextBack();
      if item.None? {
        break;
      }
      ReverseAppend(out, item.value);
      out := out + [item.value];
    }
    ReverseInvolution(out);
  }

  lemma {:induction false} ReverseAppend<T>(s: seq<T>, x: T)
    ensures Reverse(s + [x]) == [x] + Reverse(s)
  {
    if s != [] {
      assert (s + [x])[1..] == s[1..] + [x];
      ReverseAppend(s[1..], x);
    }
  }

  lemma {:induction false} ReverseInvolution<T>(s: seq<T>)
    ensures Reverse(Reverse(s)) == s
  {
    if s != [] {
      ReverseInvolution(s[1..]);
      ReverseAppend(Reverse(s[1..]), s[0]);
    }
  }
}
