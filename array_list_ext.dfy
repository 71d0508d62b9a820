/** ArrayListExt: the `copy()` extension of `ArrayList<Long>`. */
module ArrayListExt {
  import opened Types

  /** java.util.ArrayList<Long>, reduced to its element sequence and the
      operations `copy()` uses or that change it. */
  class ArrayList {
    var elements: seq<int64>

    /** `ArrayList<Long>()`: a new, empty list. */
    constructor ()
      ensures elements == []
    {
      elements := [];
    }

    /** `add(element)`: appends at the end. */
    method Add(element: int64)
      modifies this
      ensures elements == old(elements) + [element]
    {
      elements := elements + [element];
    }
  }

  /** `ArrayList<Long>.copy()`: a new list holding the receiver's elements in
      the receiver's order. The receiver is only read. */
  method Copy(list: ArrayList) returns (copy: ArrayList)
    ensures fresh(copy)
    ensures copy.elements == list.elements
  {
    copy := new ArrayList();
    for i := 0 to |list.elements|
      invariant fresh(copy)
      invariant copy.elements == list.elements[..i]
    {
      copy.Add(list.elements[i]);
    }
  }

  /** Because the copy is a different object, changing the original after
      copying it leaves the copy holding the old elements. */
  method AddAfterCopy(list: ArrayList, element: int64) returns (copy: ArrayList)
    modifies list
    ensures fresh(copy)
    ensures copy.elements == old(list.elements)
    ensures list.elements == old(list.elements) + [element]
  {
    copy := Copy(list);
    list.Add(element);
  }
}
