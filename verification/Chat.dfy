/** src/chat.rs: the message history of one chat, and the list of chats with its cursor. */
module ChatState {
  import opened Octets

  const HISTORY_CAPACITY := 200

  /** The last n elements, or all when there are fewer. */
  function Last<T>(s: seq<T>, n: nat): seq<T> {
    if |s| <= n then s else s[|s| - n..]
  }

  /** The circular queue a chat keeps its messages in: it grows up to its capacity and then
      overwrites the element at its insertion index. */
  datatype Ring<T> = Ring(data: seq<T>, index: nat)

  predicate RingOk<T>(r: Ring<T>, capacity: nat) {
    0 < capacity && |r.data| <= capacity && if |r.data| < capacity then r.index == |r.data| else r.index < capacity
  }

  function RingPush<T>(r: Ring<T>, capacity: nat, x: T): (r': Ring<T>)
    requires RingOk(r, capacity)
    ensures RingOk(r', capacity)
  {
    Ring(if |r.data| < capacity then r.data + [x] else r.data[r.index := x],
         if r.index + 1 == capacity then 0 else r.index + 1)
  }

  function Ascending<T>(r: Ring<T>): seq<T>
    requires r.index <= |r.data|
  {
    r.data[r.index..] + r.data[..r.index]
  }

  function RingAfter<T>(added: seq<T>, capacity: nat): (r: Ring<T>)
    requires 0 < capacity
    ensures RingOk(r, capacity)
  {
    if added == [] then Ring([], 0)
    else RingPush(RingAfter(added[..|added| - 1], capacity), capacity, added[|added| - 1])
  }

  /** The history refines a list cut off at the front: after any additions the ring shows, oldest
      first, the last of them, as many as it has room for. */
  lemma {:induction false} HistoryRefinement<T>(added: seq<T>, capacity: nat)
    requires 0 < capacity
    ensures Ascending(RingAfter(added, capacity)) == Last(added, capacity)
    ensures |RingAfter(added, capacity).data| == |Last(added, capacity)|
  {
    if added != [] {
      var before, x := added[..|added| - 1], added[|added| - 1];
      HistoryRefinement(before, capacity);
      var r := RingAfter(before, capacity);
      assert added == before + [x] && RingAfter(added, capacity) == RingPush(r, capacity, x);
      hide RingAfter, RingPush, Ascending, Last;
      LastOfAppended(before, x, capacity);
      if |r.data| < capacity {
        Extend(r, capacity, x);
      } else {
        Overwrite(r, x);
      }
    }
  }

  lemma LastOfAppended<T>(s: seq<T>, x: T, n: nat)
    requires 0 < n
    ensures Last(s + [x], n) == (if |s| < n then Last(s, n) else Last(s, n)[1..]) + [x]
    ensures |Last(s, n)| == if |s| < n then |s| else n
  {
  }

  /** A ring that is not full yet grows at its end. */
  lemma Extend<T>(r: Ring<T>, capacity: nat, x: T)
    requires RingOk(r, capacity) && |r.data| < capacity
    ensures Ascending(RingPush(r, capacity, x)) == Ascending(r) + [x]
    ensures |RingPush(r, capacity, x).data| == |r.data| + 1
  {
    var data := r.data + [x];
    assert Ascending(Ring(data, 0)) == data == Ascending(Ring(data, |data|)) && Ascending(r) == r.data;
  }

  /** Overwriting the oldest element and moving on drops it and appends the new one. */
  lemma Overwrite<T>(r: Ring<T>, x: T)
    requires r.index < |r.data|
    ensures Ascending(RingPush(r, |r.data|, x)) == Ascending(r)[1..] + [x]
    ensures |RingPush(r, |r.data|, x).data| == |r.data| == |Ascending(r)|
  {
  }

  class Chat {
    const id: ServiceId
    var data: seq<ChatMessage>
    var insertionIndex: nat

    function Messages(): Ring<ChatMessage>
      reads this
    {
      Ring(data, insertionIndex)
    }

    constructor (id: ServiceId)
      ensures Messages() == RingAfter([], HISTORY_CAPACITY) && this.id == id
    {
      this.id := id;
      data, insertionIndex := [], 0;
    }

    method AddMessage(message: ChatMessage)
      requires RingOk(Messages(), HISTORY_CAPACITY)
      modifies this
      ensures Messages() == RingPush(old(Messages()), HISTORY_CAPACITY, message)
    {
      if |data| < HISTORY_CAPACITY {
        data := data + [message];
      } else {
        data := data[insertionIndex := message];
      }
      insertionIndex := (insertionIndex + 1) % HISTORY_CAPACITY;
    }

    /** Of a chat that got the messages `added`, the last 200 in order of arrival. */
    method Iter(ghost added: seq<ChatMessage>) returns (s: seq<ChatMessage>)
      requires Messages() == RingAfter(added, HISTORY_CAPACITY)
      ensures s == Last(added, 200)
    {
      HistoryRefinement(added, HISTORY_CAPACITY);
      var a, b := data[..insertionIndex], data[insertionIndex..];
      return b + a;
    }
  }

  // ---------------------------------------------------------------- the list of chats

  datatype Chats = Chats(list: seq<ServiceId>, current: Option<nat>)

  datatype Operation = Add(id: ServiceId) | Remove(id: ServiceId) | NextChat | PrevChat

  /** Where an id stands first. */
  function Position(list: seq<ServiceId>, id: ServiceId): (p: Option<nat>)
    ensures p.None? <==> id !in list
    ensures p.Some? ==> p.value < |list| && list[p.value] == id && id !in list[..p.value]
  {
    if list == [] then None
    else if list[0] == id then Some(0)
    else
      var p := Position(list[1..], id);
      if p.None? then None
      else
        assert list[..p.value + 1] == [list[0]] + list[1..][..p.value];
        Some(p.value + 1)
  }

  /** `Vec::swap_remove`: the last element takes the place of the removed one. */
  function SwapRemove(list: seq<ServiceId>, index: nat): (r: seq<ServiceId>)
    requires index < |list|
    ensures |r| == |list| - 1
  {
    list[index := list[|list| - 1]][..|list| - 1]
  }

  /** The cursor after an element is taken out in front of it, at it or behind it; None is a panic. */
  function Shifted(current: Option<nat>, index: nat): Option<Option<nat>> {
    match current
    case None => None
    case Some(c) => if c < index then Some(Some(c)) else if c == 0 then Some(None) else Some(Some(c - 1))
  }

  /** One operation; None is the panic of `remove`. */
  function Step(c: Chats, op: Operation): Option<Chats> {
    match op
    case Add(id) => Some(Chats(c.list + [id], Some(|c.list|)))
    case Remove(id) =>
      var p := Position(c.list, id);
      if p.None? then Some(c)
      else
        var list := SwapRemove(c.list, p.value);
        if |list| == 0 then Some(Chats(list, None))
        else
          var current := Shifted(c.current, p.value);
          if current.None? then None else Some(Chats(list, current.value))
    case NextChat =>
      if c.current.None? then Some(c)
      else if c.current.value == |c.list| - 1 then Some(c.(current := Some(0)))
      else Some(c.(current := Some(c.current.value + 1)))
    case PrevChat =>
      if c.current.None? then Some(c)
      else if c.current.value == 0 then Some(c.(current := if |c.list| == 0 then None else Some(|c.list| - 1)))
      else Some(c.(current := Some(c.current.value - 1)))
  }

  /** An added chat stands last and is the current one; the others stay where they are. */
  lemma AddingSelects(c: Chats, id: ServiceId)
    ensures Step(c, Add(id)).Some?
    ensures var c' := Step(c, Add(id)).value;
            && |c'.list| == |c.list| + 1 && c'.current == Some(|c.list|) && c'.list[|c.list|] == id
            && forall k :: 0 <= k < |c.list| ==> c'.list[k] == c.list[k]
  {
  }

  /** Where the cursor and the chats are after the removal of the chat at position p - also when it is the
      current one - from two or more: a cursor before p stays, a cursor at 0 that is p is lost, and any
      other goes one back; the last chat takes the free place. */
  lemma RemovalMovesCursor(c: Chats, id: ServiceId, p: nat)
    requires CursorInside(c) && c.current.Some? && |c.list| >= 2
    requires p < |c.list| && c.list[p] == id && id !in c.list[..p]
    ensures Step(c, Remove(id)).Some?
    ensures var i, c' := c.current.value, Step(c, Remove(id)).value;
            && (i < p ==> c'.current == Some(i))
            && (i == 0 && p == 0 ==> c'.current == None)
            && (i >= p && i > 0 ==> c'.current == Some(i - 1))
            && |c'.list| == |c.list| - 1
            && forall k :: 0 <= k < |c'.list| ==> c'.list[k] == if k == p then c.list[|c.list| - 1] else c.list[k]
  {
    assert Position(c.list, id) == Some(p);
  }

  /** A removal of a chat that is not there changes nothing, and that of the only one empties the list. */
  lemma RemovalOfNoneOrOnly(c: Chats, id: ServiceId)
    ensures id !in c.list ==> Step(c, Remove(id)) == Some(c)
    ensures c.list == [id] ==> Step(c, Remove(id)) == Some(Chats([], None))
  {
  }

  predicate CursorInside(c: Chats) {
    c.current.Some? ==> c.current.value < |c.list|
  }

  function Run(c: Chats, ops: seq<Operation>): Option<Chats>
    decreases |ops|
  {
    if ops == [] then Some(c)
    else
      var c' := Step(c, ops[0]);
      if c'.None? then None else Run(c'.value, ops[1..])
  }

  /** On every run from the empty list the cursor, when there is one, points into the list. */
  lemma {:induction false} CursorStaysInside(c: Chats, ops: seq<Operation>)
    requires CursorInside(c)
    ensures Run(c, ops).Some? ==> CursorInside(Run(c, ops).value)
    decreases |ops|
  {
    if ops != [] && Step(c, ops[0]).Some? {
      CursorStaysInside(Step(c, ops[0]).value, ops[1..]);
    }
  }

  /** `remove` is not free of panics. It panics exactly when it finds its id in a list of two or
      more that has no cursor. */
  lemma PanicsExactlyWhen(c: Chats, op: Operation)
    ensures Step(c, op).None? <==> op.Remove? && op.id in c.list && |c.list| >= 2 && c.current.None?
  {
  }

  lemma FirstOf(c: Chats, op: Operation, ops: seq<Operation>)
    requires Step(c, op).Some?
    ensures Run(c, [op] + ops) == Run(Step(c, op).value, ops)
    ensures Run(c, []) == Some(c) && Run(Step(c, op).value, []) == Step(c, op)
  {
    assert ([op] + ops)[1..] == ops;
  }

  /** A list of three chats loses its cursor, and the removal of one of the two that are left panics. */
  lemma RemovalCanPanic(a: ServiceId, b: ServiceId, d: ServiceId)
    requires a != b && b != d && a != d
    ensures Run(Chats([], None), [Add(a), Add(b), Add(d), NextChat, Remove(a)]) == Some(Chats([d, b], None))
    ensures Step(Chats([d, b], None), Remove(b)).None?
  {
    hide Position;
    var c1, c2, c3 := Chats([a], Some(0)), Chats([a, b], Some(1)), Chats([a, b, d], Some(2));
    var c4, c5 := Chats([a, b, d], Some(0)), Chats([d, b], None);
    assert [] + [a] == [a] && [a] + [b] == [a, b] && [a, b] + [d] == [a, b, d] && SwapRemove([a, b, d], 0) == [d, b];
    assert Step(c4, Remove(a)) == Some(c5);
    hide SwapRemove, Position, Run;
    FirstOf(c4, Remove(a), []);
    FirstOf(c3, NextChat, [Remove(a)]);
    FirstOf(c2, Add(d), [NextChat, Remove(a)]);
    FirstOf(c1, Add(b), [Add(d), NextChat, Remove(a)]);
    FirstOf(Chats([], None), Add(a), [Add(b), Add(d), NextChat, Remove(a)]);
  }

  /** A non-empty list without a cursor. */
  predicate Lost(c: Chats) {
    c.current.None? && c.list != []
  }

  /** That state is entered exactly by removing the chat at position 0, while it is the current one,
      from two or more; it is left exactly by adding a chat or by removing the only one. */
  lemma LosingTheCursor(c: Chats, op: Operation)
    requires CursorInside(c) && Step(c, op).Some?
    ensures !Lost(c) && Lost(Step(c, op).value) <==>
            op.Remove? && c.current == Some(0) && Position(c.list, op.id) == Some(0) && |c.list| >= 2
    ensures Lost(c) && !Lost(Step(c, op).value) <==>
            Lost(c) && (op.Add? || (op.Remove? && c.list == [op.id]))
  {
  }

  /** Going on and going back undo each other. */
  lemma NextAndPrevAreInverse(c: Chats)
    requires CursorInside(c)
    ensures Run(c, [NextChat, PrevChat]) == Some(c)
    ensures Run(c, [PrevChat, NextChat]) == Some(c)
  {
  }

  function Onwards(c: Chats, k: nat): Chats
    requires CursorInside(c)
    ensures CursorInside(Onwards(c, k))
  {
    if k == 0 then c else Step(Onwards(c, k - 1), NextChat).value
  }

  lemma {:induction false} WhereOnwardsLeads(c: Chats, k: nat)
    requires CursorInside(c) && c.current.Some? && k <= |c.list|
    ensures Onwards(c, k).list == c.list
    ensures Onwards(c, k).current ==
            Some(if c.current.value + k < |c.list| then c.current.value + k else c.current.value + k - |c.list|)
  {
    if k > 0 {
      WhereOnwardsLeads(c, k - 1);
    }
  }

  /** How far ahead of the cursor a position lies, going round at the end. */
  function StepsTo(c: Chats, position: nat): nat
    requires CursorInside(c) && c.current.Some? && position < |c.list|
  {
    if position >= c.current.value then position - c.current.value else position + |c.list| - c.current.value
  }

  /** As many steps as there are chats come back to the start and pass each position exactly once. */
  lemma FullCircle(c: Chats, position: nat)
    requires CursorInside(c) && c.current.Some? && position < |c.list|
    ensures Onwards(c, |c.list|) == c
    ensures StepsTo(c, position) < |c.list|
    ensures forall k :: 0 <= k < |c.list| ==> (Onwards(c, k).current == Some(position) <==> k == StepsTo(c, position))
  {
    hide Onwards, Step;
    WhereOnwardsLeads(c, |c.list|);
    forall k | 0 <= k < |c.list| ensures Onwards(c, k).current == Some(position) <==> k == StepsTo(c, position) {
      WhereOnwardsLeads(c, k);
    }
  }

  /** A removal takes out one occurrence of its id and nothing else. */
  lemma RemoveIsOneLess(c: Chats, id: ServiceId)
    requires Step(c, Remove(id)).Some?
    ensures multiset(Step(c, Remove(id)).value.list) == multiset(c.list) - multiset{id}
  {
    if id in c.list {
      assert c.list[Position(c.list, id).value] == id;
      SwapRemoveIsOneLess(c.list, Position(c.list, id).value);
    }
  }

  lemma SwapRemoveIsOneLess(list: seq<ServiceId>, index: nat)
    requires index < |list|
    ensures multiset(SwapRemove(list, index)) == multiset(list) - multiset{list[index]}
  {
    var swapped := list[index := list[|list| - 1]];
    var last := list[|list| - 1];
    assert swapped[|list| - 1] == last;
    assert swapped == SwapRemove(list, index) + [last];
    assert multiset(swapped) == multiset(SwapRemove(list, index)) + multiset{last};
    var rest := multiset(list) - multiset{list[index]};
    assert multiset(swapped) == rest + multiset{last};
    assert rest + multiset{last} - multiset{last} == rest;
    assert multiset(SwapRemove(list, index)) + multiset{last} - multiset{last} == multiset(SwapRemove(list, index));
  }

  /** Removing another chat does not always leave the selected chat selected. It does exactly when the
      selected one stands before the removed one, or when the chat that comes to stand under the
      shifted cursor - the last one, if that place was just vacated - has the same id. */
  lemma SelectionSurvivesExactlyWhen(c: Chats, id: ServiceId)
    requires CursorInside(c) && c.current.Some? && id in c.list && c.list[c.current.value] != id
    ensures Step(c, Remove(id)).Some?
    ensures var c' := Step(c, Remove(id)).value;
            var selected, removed := c.current.value, Position(c.list, id).value;
            (c'.current.Some? && c'.list[c'.current.value] == c.list[selected]) <==>
            selected < removed ||
            c.list[if selected == removed + 1 then |c.list| - 1 else selected - 1] == c.list[selected]
  {
  }

  /** That happens: of three distinct chats the first is removed, and the cursor moves from the second to
      the third. */
  lemma SelectionCanBeLost(a: ServiceId, b: ServiceId, d: ServiceId)
    requires a != b && b != d && a != d
    ensures Step(Chats([a, b, d], Some(1)), Remove(a)) == Some(Chats([d, b], Some(0)))
  {
    assert SwapRemove([a, b, d], 0) == [d, b];
  }

  predicate Distinct(list: seq<ServiceId>) {
    forall i, j :: 0 <= i < j < |list| ==> list[i] != list[j]
  }

  /** Among distinct chats that is when the selected one stands before the removed one, or right
      behind it at the end of the list. */
  lemma SelectionAmongDistinct(c: Chats, id: ServiceId)
    requires CursorInside(c) && c.current.Some? && id in c.list && c.list[c.current.value] != id && Distinct(c.list)
    ensures var c' := Step(c, Remove(id)).value;
            var selected, removed := c.current.value, Position(c.list, id).value;
            (c'.current.Some? && c'.list[c'.current.value] == c.list[selected]) <==>
            selected < removed || (selected == removed + 1 && selected == |c.list| - 1)
  {
    SelectionSurvivesExactlyWhen(c, id);
  }

  /** The list stays distinct as long as no chat is added that it has already. */
  lemma StaysDistinct(c: Chats, op: Operation)
    requires Distinct(c.list) && Step(c, op).Some?
    ensures Distinct(Step(c, op).value.list) <==> !(op.Add? && op.id in c.list)
  {
    if op.Add? && op.id in c.list {
      var list := Step(c, op).value.list;
      assert list[Position(c.list, op.id).value] == list[|c.list|];
    }
  }

  class ChatList {
    var list: seq<ServiceId>
    var currentIndex: Option<nat>

    ghost function State(): Chats
      reads this
    {
      Chats(list, currentIndex)
    }

    constructor ()
      ensures State() == Chats([], None)
    {
      list, currentIndex := [], None;
    }

    method Add(id: ServiceId)
      modifies this
      ensures Some(State()) == Step(old(State()), Operation.Add(id))
    {
      list := list + [id];
      currentIndex := Some(|list| - 1);
    }

    /** The search of `remove`. */
    method FindFirst(id: ServiceId) returns (p: Option<nat>)
      ensures p == Position(list, id)
    {
      for i := 0 to |list|
        invariant id !in list[..i]
      {
        if list[i] == id {
          return Some(i);
        }
      }
      return None;
    }

    /** Tells whether it panicked; then the list has lost the chat all the same. */
    method Remove(id: ServiceId) returns (panicked: bool)
      modifies this
      ensures panicked <==> Step(old(State()), Operation.Remove(id)).None?
      ensures !panicked ==> Some(State()) == Step(old(State()), Operation.Remove(id))
      ensures panicked ==> id in old(list) && list == SwapRemove(old(list), Position(old(list), id).value) &&
                           currentIndex == old(currentIndex)
    {
      var p := FindFirst(id);
      if p.None? {
        return false;
      }
      var index := p.value;
      list := SwapRemove(list, index);
      if list == [] {
        currentIndex := None;
        return false;
      }
      match currentIndex
      case Some(current) =>
        if current >= index {
          if current == 0 {
            currentIndex := None;
          } else {
            currentIndex := Some(current - 1);
          }
        }
        return false;
      case None =>
        return true;
    }

    method Current() returns (id: Option<ServiceId>)
      ensures id == if currentIndex.Some? && currentIndex.value < |list| then Some(list[currentIndex.value]) else None
    {
      match currentIndex
      case Some(index) => return if index < |list| then Some(list[index]) else None;
      case None => return None;
    }

    method Next() returns (id: Option<ServiceId>)
      requires CursorInside(State())
      modifies this
      ensures Some(State()) == Step(old(State()), NextChat)
      ensures id == if currentIndex.Some? then Some(list[currentIndex.value]) else None
    {
      match currentIndex
      case Some(index) =>
        if index == |list| - 1 {
          currentIndex := Some(0);
        } else {
          currentIndex := Some(index + 1);
        }
        id := Current();
      case None =>
        return None;
    }

    method Prev() returns (id: Option<ServiceId>)
      requires CursorInside(State())
      modifies this
      ensures Some(State()) == Step(old(State()), PrevChat)
      ensures id == if currentIndex.Some? then Some(list[currentIndex.value]) else None
    {
      match currentIndex
      case Some(index) =>
        if index == 0 {
          currentIndex := Some(|list| - 1);
        } else {
          currentIndex := Some(index - 1);
        }
        id := Current();
      case None =>
        return None;
    }
  }
}
