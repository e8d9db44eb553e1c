/** The cursor over a copied array of items (src/accessor.ts), and its
    variant with a stack of saved offsets. */
module Accessors {
  import opened Wrappers

  /** `items.slice()` stored as the cursor's own sequence: every slot holds
      an item. */
  function Copy<T>(items: seq<T>): (r: seq<Option<T>>)
    ensures |r| == |items|
    ensures forall i :: 0 <= i < |items| ==> r[i] == Some(items[i])
  {
    if items == [] then [] else [Some(items[0])] + Copy(items[1..])
  }

  class Accessor<T> {
    /** The internal array. `new Array(size)` has `size` empty slots, which
        read as `undefined`; an empty slot is `None`. */
    var items: seq<Option<T>>
    /** Any number may be stored here by `SetOffset`. */
    var offset: int

    /** A new accessor has `size` empty slots and offset 0. */
    constructor (size: nat)
      ensures items == seq(size, _ => None) && offset == 0
    {
      items := seq(size, _ => None);
      offset := 0;
    }

    method SetOffset(o: int) returns (self: Accessor<T>)
      modifies this
      ensures self == this && offset == o && items == old(items)
    {
      offset := o;
      self := this;
    }

    /** Moves back `count` places, stopping at 0. */
    method Rewind(count: int) returns (self: Accessor<T>)
      modifies this
      ensures self == this && items == old(items)
      ensures offset == if old(offset) - count < 0 then 0 else old(offset) - count
      ensures offset >= 0
    {
      offset := offset - count;
      if offset < 0 {
        offset := 0;
      }
      self := this;
    }

    /** Stores a copy of the caller's array: later writes to `xs` are not
        seen, because `items` is a value. The offset is left as it was. */
    method SetItems(xs: array<T>) returns (self: Accessor<T>)
      modifies this
      ensures self == this && items == Copy(xs[..]) && offset == old(offset)
    {
      items := Copy(xs[..]);
      self := this;
    }

    /** The item at the offset, or `None` (JavaScript's `undefined`) for an
        empty slot or an offset outside the array. */
    function Peak(): Option<T>
      reads this
    {
      if 0 <= offset < |items| then items[offset] else None
    }

    function HasNext(): bool
      reads this
    {
      offset < |items|
    }

    /** Returns what `Peak` would and advances exactly one place. */
    method Next() returns (r: Option<T>)
      modifies this
      ensures r == old(Peak())
      ensures offset == old(offset) + 1 && items == old(items)
    {
      r := Peak();
      offset := offset + 1;
    }
  }

  /** On a copied array with a non-negative offset, there is an item to
      peek at exactly when `HasNext` holds. */
  lemma PeakAgreesWithHasNext<T>(a: Accessor<T>, xs: seq<T>)
    requires a.items == Copy(xs) && a.offset >= 0
    ensures a.HasNext() <==> a.Peak().Some?
    ensures a.HasNext() ==> a.Peak() == Some(xs[a.offset])
  {
  }

  /** The accessor with a stack of saved offsets. The source extends
      `Accessor`; here the accessor is a component, `base`. */
  class Staccessor<T> {
    const base: Accessor<T>
    var stack: seq<int>

    /** The source never initialises the stack; it starts empty here. */
    constructor (size: nat)
      ensures fresh(base) && base.items == seq(size, _ => None) && base.offset == 0
      ensures stack == []
    {
      base := new Accessor<T>(size);
      stack := [];
    }

    /** Pushes the current offset. */
    method Save() returns (self: Staccessor<T>)
      modifies this
      ensures self == this && stack == old(stack) + [base.offset]
    {
      stack := stack + [base.offset];
      self := this;
    }

    /** Pops the most recent save into the offset. */
    method Restore() returns (self: Staccessor<T>)
      requires |stack| > 0
      modifies this, base
      ensures self == this
      ensures base.offset == old(stack[|stack| - 1]) && stack == old(stack[..|stack| - 1])
      ensures base.items == old(base.items)
    {
      var top := stack[|stack| - 1];
      stack := stack[..|stack| - 1];
      var _ := base.SetOffset(top);
      self := this;
    }

    /** Pops the most recent save and keeps the current offset: the
        "restore(true)" the parser relies on after a successful match. */
    method Discard()
      requires |stack| > 0
      modifies this
      ensures stack == old(stack[..|stack| - 1])
    {
      stack := stack[..|stack| - 1];
    }
  }

  /** Save, any number of `Next` calls, then `Restore` returns the cursor
      to the saved offset and the stack to its old depth. */
  method SaveAdvanceRestore<T>(s: Staccessor<T>, k: nat)
    modifies s, s.base
    ensures s.base.offset == old(s.base.offset) && s.stack == old(s.stack)
    ensures s.base.items == old(s.base.items)
  {
    var _ := s.Save();
    var i := 0;
    while i < k
      invariant s.stack == old(s.stack) + [old(s.base.offset)]
      invariant s.base.items == old(s.base.items)
    {
      var _ := s.base.Next();
      i := i + 1;
    }
    var _ := s.Restore();
  }
}
