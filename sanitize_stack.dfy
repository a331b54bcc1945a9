/** The linked stack of sanitize/stack.go. Each item points to the one
    below it; `Contents` lists the stored values from the top down. Values
    are never nil in the model (the stripper pushes only contexts), so Go's
    "nil when empty" results become `None`. */
module SanitizeStack {
  import opened Wrappers

  class StackItem<T> {
    var value: T
    var previous: StackItem?<T>
    /** This item's value followed by the values below it. */
    ghost var below: seq<T>
    ghost var footprint: set<object>

    ghost predicate Valid()
      reads this, footprint
    {
      this in footprint &&
      (previous == null ==> below == [value] && footprint == {this}) &&
      (previous != null ==>
         previous in footprint && previous.footprint <= footprint &&
         this !in previous.footprint &&
         footprint == {this} + previous.footprint &&
         below == [value] + previous.below &&
         previous.Valid())
    }

    constructor (value: T, previous: StackItem?<T>)
      requires previous != null ==> previous.Valid()
      ensures Valid() && this.value == value && this.previous == previous
      ensures previous == null ==> below == [value] && footprint == {this}
      ensures previous != null ==>
                below == [value] + previous.below && footprint == {this} + previous.footprint
    {
      this.value := value;
      this.previous := previous;
      if previous == null {
        below := [value];
        footprint := {this};
      } else {
        below := [value] + previous.below;
        footprint := {this} + previous.footprint;
      }
    }
  }

  class Stack<T> {
    var top: StackItem?<T>
    /** The stored values, top first. */
    ghost var Contents: seq<T>
    ghost var Repr: set<object>

    ghost predicate Valid()
      reads this, Repr
    {
      this in Repr &&
      (top == null ==> Contents == [] && Repr == {this}) &&
      (top != null ==>
         top in Repr && this !in top.footprint && Repr == {this} + top.footprint &&
         top.Valid() && Contents == top.below)
    }

    /** The zero value `Stack {}`. */
    constructor ()
      ensures Valid() && fresh(Repr) && Contents == []
    {
      top := null;
      Contents := [];
      Repr := {this};
    }

    method Push(value: T) returns (r: T)
      requires Valid()
      modifies this
      ensures Valid() && fresh(Repr - old(Repr))
      ensures r == value && Contents == [value] + old(Contents)
    {
      var item := new StackItem(value, top);
      top := item;
      Contents := [value] + Contents;
      Repr := {this} + item.footprint;
      r := value;
    }

    method Pop() returns (r: Option<T>)
      requires Valid()
      modifies Repr
      ensures Valid() && Repr <= old(Repr)
      ensures old(Contents) == [] ==> r == None && Contents == []
      ensures old(Contents) != [] ==> r == Some(old(Contents)[0]) && Contents == old(Contents)[1..]
    {
      var item := top;
      if item == null {
        return None;
      }
      top := item.previous;
      item.previous := null;
      Contents := Contents[1..];
      Repr := if top == null then {this} else {this} + top.footprint;
      r := Some(item.value);
    }

    /** Pops up to `count` values and returns the last one popped; `None`
        when nothing was popped or the stack ran out first. */
    method PopMany(count: int) returns (r: Option<T>)
      requires Valid()
      modifies Repr
      ensures Valid() && Repr <= old(Repr)
      ensures var k := if count <= 0 then 0 else if count < |old(Contents)| then count else |old(Contents)|;
              Contents == old(Contents)[k..]
      ensures r == if 0 < count <= |old(Contents)| then Some(old(Contents)[count - 1]) else None
    {
      r := None;
      var i := 0;
      while i < count
        invariant Valid() && Repr <= old(Repr)
        invariant 0 <= i <= |old(Contents)| && i <= (if count > 0 then count else 0)
        invariant Contents == old(Contents)[i..]
        invariant r == if i == 0 then None else Some(old(Contents)[i - 1])
        decreases count - i
      {
        r := Pop();
        if r == None {
          assert i == |old(Contents)|;
          break;
        }
        i := i + 1;
      }
    }

    function Peek(): (r: Option<T>)
      requires Valid()
      reads this, Repr
      ensures Contents == [] ==> r == None
      ensures Contents != [] ==> r == Some(Contents[0])
    {
      if top == null then None else Some(top.value)
    }

    /** Visits the values from the top down until `walker` says false.
        `stopped` is Go's result (true if the walk stopped early); `calls`
        is how many times `walker` was called. */
    method Walk(walker: T -> bool) returns (stopped: bool, calls: nat)
      requires Valid()
      ensures calls <= |Contents|
      ensures forall k :: 0 <= k < calls - 1 ==> walker(Contents[k])
      ensures stopped <==> exists k :: 0 <= k < |Contents| && !walker(Contents[k])
      ensures stopped ==> calls > 0 && !walker(Contents[calls - 1])
      ensures !stopped ==> calls == |Contents|
    {
      calls := 0;
      var item := top;
      while item != null
        invariant calls <= |Contents|
        invariant forall k :: 0 <= k < calls ==> walker(Contents[k])
        invariant item == null ==> calls == |Contents|
        invariant item != null ==> item in Repr && item.footprint <= Repr && item.Valid() &&
                                   item.below == Contents[calls..]
        decreases |Contents| - calls
      {
        assert item.value == Contents[calls];
        calls := calls + 1;
        if !walker(item.value) {
          return true, calls;
        }
        item := item.previous;
      }
      stopped := false;
    }
  }

  /** After `Push(v)`, `Peek()` returns `v`; peeking changes nothing. */
  method PushThenPeek<T>(stack: Stack<T>, v: T) returns (r: Option<T>)
    requires stack.Valid()
    modifies stack
    ensures stack.Valid() && r == Some(v)
    ensures stack.Contents == [v] + old(stack.Contents)
  {
    var pushed := stack.Push(v);
    r := stack.Peek();
  }

  /** `Push(v)` followed by `Pop()` returns `v` and restores the stack. */
  method PushThenPop<T>(stack: Stack<T>, v: T) returns (r: Option<T>)
    requires stack.Valid()
    modifies stack.Repr
    ensures stack.Valid() && r == Some(v)
    ensures stack.Contents == old(stack.Contents)
  {
    var pushed := stack.Push(v);
    r := stack.Pop();
  }
}
