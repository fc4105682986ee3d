/** `LocalStack<T>`: one stack per thread. The thread-local slot is the map
    `stacks`; a thread without a slot sees an empty stack, as a fresh
    `ThreadLocal.withInitial` stack would be. The top of a stack is its last
    element. */
module LocalStacks {
  import opened Values

  class LocalStack<T> {
    var stacks: map<ThreadId, seq<T>>

    /** The stack thread `t` sees. */
    function Stack(t: ThreadId): seq<T>
      reads this
    {
      if t in stacks then stacks[t] else []
    }

    constructor ()
      ensures stacks == map[]
      ensures forall t :: Stack(t) == []
    {
      stacks := map[];
    }

    /** `get()`: the top of the calling thread's stack. `Stack.peek` throws on
        an empty stack, and every caller tests `isEmpty` first. */
    method Get(t: ThreadId) returns (x: T)
      requires Stack(t) != []
      ensures x == Stack(t)[|Stack(t)| - 1]
    {
      var s := stacks[t];
      x := s[|s| - 1];
    }

    method IsEmpty(t: ThreadId) returns (r: bool)
      ensures r <==> Stack(t) == []
    {
      r := t !in stacks || stacks[t] == [];
    }

    method Push(t: ThreadId, x: T)
      modifies this
      ensures Stack(t) == old(Stack(t)) + [x]
      ensures t in stacks
      ensures stacks - {t} == old(stacks) - {t}
      ensures forall u :: u != t ==> Stack(u) == old(Stack(u))
    {
      stacks := stacks[t := Stack(t) + [x]];
    }

    /** `pop()`: the top element, or null (and no change) on an empty stack. */
    method Pop(t: ThreadId) returns (r: Option<T>)
      modifies this
      ensures old(Stack(t)) == [] ==> r == None && stacks == old(stacks)
      ensures old(Stack(t)) != [] ==>
        && r == Some(old(Stack(t))[|old(Stack(t))| - 1])
        && Stack(t) == old(Stack(t))[..|old(Stack(t))| - 1]
        && t in stacks
      ensures stacks - {t} == old(stacks) - {t}
      ensures forall u :: u != t ==> Stack(u) == old(Stack(u))
    {
      if t in stacks && stacks[t] != [] {
        var s := stacks[t];
        r := Some(s[|s| - 1]);
        stacks := stacks[t := s[..|s| - 1]];
      } else {
        r := None;
      }
    }

    /** `remove()`: drop the calling thread's slot; its next access sees a
        fresh empty stack. */
    method Remove(t: ThreadId)
      modifies this
      ensures t !in stacks && Stack(t) == []
      ensures stacks - {t} == old(stacks) - {t}
      ensures forall u :: u != t ==> Stack(u) == old(Stack(u))
    {
      stacks := stacks - {t};
    }

    /** `removeIfEmpty()`: drop the slot only when the stack is already empty. */
    method RemoveIfEmpty(t: ThreadId)
      modifies this
      ensures old(Stack(t)) == [] ==> t !in stacks
      ensures old(Stack(t)) != [] ==> stacks == old(stacks)
      ensures Stack(t) == old(Stack(t))
      ensures stacks - {t} == old(stacks) - {t}
      ensures forall u :: u != t ==> Stack(u) == old(Stack(u))
    {
      if t !in stacks || stacks[t] == [] {
        stacks := stacks - {t};
      }
    }
  }

  /** A push followed by a pop on the same thread returns the pushed element
      and leaves every thread's stack as it was. */
  method PushThenPop<T>(s: LocalStack<T>, t: ThreadId, x: T) returns (top: T, popped: Option<T>)
    modifies s
    ensures top == x && popped == Some(x)
    ensures forall u :: s.Stack(u) == old(s.Stack(u))
  {
    s.Push(t, x);
    top := s.Get(t);
    popped := s.Pop(t);
    assert old(s.Stack(t)) + [x] == s.Stack(t) + [x];
    forall u | u != t
      ensures s.Stack(u) == old(s.Stack(u))
    {
      assert u in s.stacks - {t} <==> u in old(s.stacks) - {t};
    }
  }
}
