/** The bounded LIFO stack TStackList of include/tstacklist.h.  The base list
    TList is abstracted as a sequence whose head (index 0) is the list's start:
    PutStart prepends and GetStart removes the head, and the list's element
    count is the length of that sequence. */
module StackList {
  import opened Failures

  /** The capacity a stack gets when none is given. */
  const DefaultCapacity: int := 10

  /** The three ways the stack throws. */
  datatype StackError =
    | InvalidCapacity  // constructor argument <= 0
    | Overflow         // Put on a full stack
    | Underflow        // Get on an empty stack

  class TStackList {
    /** The maximum number of elements (the C++ field `size`). */
    var capacity: int
    /** The underlying list, top of the stack first; its length is `count`. */
    var elems: seq<int>

    /** The invariant every ordinary stack keeps: a positive capacity that
        the element count never exceeds. */
    ghost predicate Valid()
      reads this
    {
      0 < capacity && |elems| <= capacity
    }

    /** Sets up an empty stack of a capacity already known to be positive;
        Create is the checking entry point. */
    constructor Init(size: int)
      requires size > 0
      ensures Valid()
      ensures capacity == size && elems == []
    {
      capacity := size;
      elems := [];
    }

    /** The constructor TStackList(int _size = 10): a capacity <= 0 is
        refused, any other one gives an empty stack of that capacity. */
    static method Create(size: int := DefaultCapacity) returns (r: Result<TStackList, StackError>)
      ensures r.Failure? <==> size <= 0
      ensures r.Failure? ==> r.error == InvalidCapacity
      ensures r.Success? ==> fresh(r.value) && r.value.Valid()
      ensures r.Success? ==> r.value.capacity == size && r.value.elems == []
    {
      if size <= 0 {
        return Failure(InvalidCapacity);
      }
      var s := new TStackList.Init(size);
      return Success(s);
    }

    /** The copy constructor: the copy gets the source's list and count.  Its
        capacity is left unassigned, as the C++ field `size` is, so nothing is
        known about it. */
    constructor Copy(a: TStackList)
      ensures elems == a.elems
    {
      elems := a.elems;
    }

    /** GetMaxSize: the capacity. */
    function GetMaxSize(): (n: int)
      reads this
      ensures Valid() ==> n > 0 && n >= |elems|
      ensures n == capacity
    {
      capacity
    }

    /** GetSize: the element count. */
    function GetSize(): (n: nat)
      reads this
      ensures n == 0 <==> elems == []
      ensures Valid() ==> n <= capacity
      ensures n == |elems|
    {
      |elems|
    }

    /** IsEmpty: the count is 0. */
    predicate IsEmpty()
      reads this
      ensures IsEmpty() <==> elems == []
    {
      |elems| == 0
    }

    /** IsFull: the count equals the capacity; on a valid stack this means
        no element can be added without exceeding the capacity. */
    predicate IsFull()
      reads this
      ensures IsFull() <==> |elems| == capacity
      ensures Valid() ==> (IsFull() <==> |elems| + 1 > capacity)
    {
      |elems| == capacity
    }

    /** Put: refused on a full stack, which then stays as it was; otherwise
        the element becomes the new top (PutStart) and the count grows by
        one.  The capacity never changes. */
    method Put(x: int) returns (r: Outcome<StackError>)
      modifies this
      ensures r == (if old(IsFull()) then Fail(Overflow) else Pass)
      ensures r.Fail? ==> elems == old(elems)
      ensures r.Pass? ==> elems == [x] + old(elems)
      ensures capacity == old(capacity)
      ensures old(Valid()) ==> Valid()
    {
      if IsFull() {
        return Fail(Overflow);
      }
      elems := [x] + elems;
      return Pass;
    }

    /** Get: refused on an empty stack, which then stays as it was; otherwise
        the top element is removed (GetStart) and returned.  The capacity
        never changes. */
    method Get() returns (r: Result<int, StackError>)
      modifies this
      ensures r.Failure? <==> old(IsEmpty())
      ensures r.Failure? ==> r.error == Underflow && elems == old(elems)
      ensures r.Success? ==> r.value == old(elems)[0] && elems == old(elems)[1..]
      ensures r.Success? ==> |elems| == old(|elems|) - 1
      ensures capacity == old(capacity)
      ensures old(Valid()) ==> Valid()
    {
      if IsEmpty() {
        return Failure(Underflow);
      }
      var top := elems[0];
      elems := elems[1..];
      return Success(top);
    }
  }

  /** LIFO: on a stack that is not full, a Put followed by a Get returns the
      element just put and leaves the stack exactly as it was before. */
  method PutThenGet(s: TStackList, x: int) returns (put: Outcome<StackError>, got: Result<int, StackError>)
    requires !s.IsFull()
    modifies s
    ensures put == Pass && got == Success(x)
    ensures s.elems == old(s.elems) && s.capacity == old(s.capacity)
  {
    put := s.Put(x);
    got := s.Get();
  }

  /** A Put on a full stack and a Get on an empty one both fail and leave
      the stack as it was: the element stored before the refused Put is
      still the one popped afterwards. */
  method RefusedOperations(x: int) returns (put: Outcome<StackError>, got: Result<int, StackError>, top: Result<int, StackError>, count: nat)
    ensures put == Fail(Overflow) && got == Failure(Underflow)
    ensures top == Success(x) && count == 0
  {
    var c := TStackList.Create(1);
    var s := c.value;
    got := s.Get();
    put := s.Put(x);
    assert s.elems == [x];
    put := s.Put(x);
    assert s.elems == [x];
    top := s.Get();
    count := s.GetSize();
  }

  /** Constructing with a non-positive capacity fails; with no argument the
      capacity is 10 and the stack starts empty. */
  method CreateScenarios() returns (zero: bool, negative: bool, defaultCapacity: int, defaultEmpty: bool)
    ensures !zero && !negative
    ensures defaultCapacity == 10 && defaultEmpty
  {
    var z := TStackList.Create(0);
    zero := z.Success?;
    var n := TStackList.Create(-3);
    negative := n.Success?;
    var d := TStackList.Create();
    defaultCapacity := d.value.GetMaxSize();
    defaultEmpty := d.value.IsEmpty();
  }

  /** The copy of a stack reports the same element count as its source. */
  method CopyKeepsCount(s: TStackList) returns (n: nat, m: nat)
    ensures n == m == |s.elems|
  {
    var c := new TStackList.Copy(s);
    n := c.GetSize();
    m := s.GetSize();
  }
}
