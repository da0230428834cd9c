/**
 * A concept is a node of the knowledge graph: an identifier, a type string
 * and a growable buffer of slots, each slot a named, directed relation to
 * another concept (src/concept.c, include/concept.h).
 */
module Concepts {
  import opened Wrappers
  import opened SlotGrowth

  /**
   * One relation. The target is a reference to another concept that the
   * slot does not own; NULL is the value of a buffer cell not yet written.
   */
  datatype Slot = Slot(name: string, target: Concept?)

  class Concept {
    var id: string
    var types: string
    /** The slot buffer; NULL until the first slot is added. */
    var slots: array?<Slot>
    var slotCount: nat
    var slotCapacity: nat

    /** The buffer invariant: the used prefix fits, and every stored slot has a target. */
    ghost predicate Valid()
      reads this, slots
    {
      (slots == null <==> slotCapacity == 0) &&
      (slots != null ==> slots.Length == slotCapacity) &&
      slotCount <= slotCapacity &&
      IsCapacity(slotCapacity) &&
      (slots != null ==> forall k :: 0 <= k < slotCount ==> slots[k].target != null)
    }

    /** The slots, in insertion order. */
    ghost function Contents(): (s: seq<Slot>)
      reads this, slots
      requires Valid()
      ensures |s| == slotCount
    {
      if slots == null then [] else slots[..slotCount]
    }

    /** create_concept: a bare node with its own copies of the id and type and no slot buffer. */
    constructor (id: string, types: string)
      ensures Valid()
      ensures this.id == id && this.types == types
      ensures slots == null && slotCount == 0 && slotCapacity == 0
      ensures Contents() == []
      ensures slotCapacity == CapacityAfterAppends(slotCount)
    {
      this.id := id;
      this.types := types;
      slots := null;
      slotCount := 0;
      slotCapacity := 0;
    }
  }

  /**
   * realloc: a buffer of `capacity` cells whose first `count` cells are those
   * of `buffer` (no buffer at all behaves as an empty one).
   */
  method Reallocate(buffer: array?<Slot>, count: nat, capacity: nat) returns (r: array<Slot>, ghost copied: nat)
    requires buffer != null ==> count <= buffer.Length
    requires buffer == null ==> count == 0
    requires count <= capacity
    ensures fresh(r) && r.Length == capacity
    ensures buffer != null ==> r[..count] == buffer[..count]
    ensures copied == count
  {
    r := new Slot[capacity];
    copied := 0;
    var i := 0;
    while i < count
      invariant 0 <= i <= count
      invariant copied == i
      invariant buffer != null ==> r[..i] == buffer[..i]
    {
      r[i] := buffer[i];
      copied := copied + 1;
      i := i + 1;
    }
  }

  /**
   * add_slot: append (name, target) to the concept's slots, first growing a
   * full buffer to 2 cells (when it had none) or to twice its capacity.
   * A NULL concept, name or target leaves everything as it was.
   * `copied` is the number of slots the regrowth carried over.
   */
  method AddSlot(concept: Concept?, slotName: Option<string>, target: Concept?) returns (ghost copied: nat)
    requires concept != null ==> concept.Valid()
    modifies if concept != null then {concept} else {}
    modifies if concept != null && concept.slots != null then {concept.slots} else {}
    ensures concept != null ==> concept.Valid()
    ensures concept != null && (slotName.None? || target == null) ==>
      unchanged(concept) && (concept.slots != null ==> unchanged(concept.slots)) &&
      concept.Contents() == old(concept.Contents()) && copied == 0
    ensures concept != null && slotName.Some? && target != null ==>
      concept.slotCount == old(concept.slotCount) + 1 &&
      concept.Contents() == old(concept.Contents()) + [Slot(slotName.value, target)]
    ensures concept != null && slotName.Some? && target != null ==>
      concept.slotCapacity == CapacityForNext(old(concept.slotCount), old(concept.slotCapacity))
    ensures concept != null && slotName.Some? && target != null && old(concept.slotCapacity) == 0 ==>
      concept.slotCapacity == 2
    ensures concept != null && slotName.Some? && target != null &&
            0 < old(concept.slotCapacity) <= old(concept.slotCount) ==>
      concept.slotCapacity == 2 * old(concept.slotCapacity)
    ensures concept != null && slotName.Some? && target != null ==>
      if old(concept.slotCount) < old(concept.slotCapacity)
      then concept.slots == old(concept.slots)
      else fresh(concept.slots)
    ensures concept != null && slotName.Some? && target != null ==>
      copied == if old(concept.slotCount) < old(concept.slotCapacity) then 0 else old(concept.slotCount)
    ensures concept != null && slotName.Some? && target != null &&
            old(concept.slotCapacity) == CapacityAfterAppends(old(concept.slotCount)) ==>
      concept.slotCapacity == CapacityAfterAppends(concept.slotCount) &&
      CopiesAfterAppends(old(concept.slotCount)) + copied == CopiesAfterAppends(concept.slotCount)
    ensures concept != null ==> concept.id == old(concept.id) && concept.types == old(concept.types)
    ensures target != null && target != concept ==> unchanged(target)
    ensures concept != null && target != null && target != concept && old(target.Valid()) &&
            (old(target.slots) == null || old(target.slots) != old(concept.slots)) ==>
      target.Valid() && target.Contents() == old(target.Contents())
  {
    copied := 0;
    if concept == null || slotName.None? || target == null {
      return;
    }

    if concept.slotCount >= concept.slotCapacity {
      var newCapacity := GrowCapacity(concept.slotCapacity);
      var newSlots;
      newSlots, copied := Reallocate(concept.slots, concept.slotCount, newCapacity);
      concept.slots := newSlots;
      concept.slotCapacity := newCapacity;
    }

    concept.slots[concept.slotCount] := Slot(slotName.value, target);
    concept.slotCount := concept.slotCount + 1;
  }

  /** A fresh concept "john" after two appends, with the two fresh targets. */
  method JohnWithTwoSlots() returns (john: Concept, book1: Concept, mary: Concept)
    ensures fresh(john) && fresh(book1) && fresh(mary) && john.slots != null && fresh(john.slots)
    ensures john.Valid() && john.slotCount == 2 && john.slotCapacity == 2
    ensures john.Contents() == [Slot("owns", book1), Slot("likes", mary)]
    ensures book1.id == "book1" && mary.id == "mary"
  {
    john := new Concept("john", "Person");
    book1 := new Concept("book1", "Object");
    mary := new Concept("mary", "Person");
    ghost var copied := AddSlot(john, Some("owns"), book1);
    assert john.slotCount == 1 && john.slotCapacity == 2;
    copied := AddSlot(john, Some("likes"), mary);
    assert john.slotCount == 2 && john.slotCapacity == 2;
  }

  /**
   * Appends from a fresh concept: the third slot finds the two-cell buffer
   * full, regrows it to four cells carrying both slots over, and the slots and
   * their targets stay in insertion order.
   */
  method ThreeSlotScenario() returns (count: nat, capacity: nat, names: seq<string>, targetIds: seq<string>)
    ensures count == 3 && capacity == 4
    ensures names == ["owns", "likes", "hates"]
    ensures targetIds == ["book1", "mary", "enemy"]
  {
    var john, book1, mary := JohnWithTwoSlots();
    var enemy := new Concept("enemy", "Person");
    ghost var copied := AddSlot(john, Some("hates"), enemy);
    assert copied == 2 && john.slotCount == 3 && john.slotCapacity == 4;
    assert john.Contents() == [Slot("owns", book1), Slot("likes", mary), Slot("hates", enemy)];
    count, capacity := john.slotCount, john.slotCapacity;
    names := [john.slots[0].name, john.slots[1].name, john.slots[2].name];
    targetIds := [john.slots[0].target.id, john.slots[1].target.id, john.slots[2].target.id];
  }

  /**
   * The worked example of the add_slot comment: a concept holding
   * [owns -> book1, likes -> mary] in a four-cell buffer gets "hates -> enemy"
   * written into free room at index 2, without reallocation.
   */
  method CommentExample() returns (count: nat, capacity: nat, reused: bool, third: Slot, thirdTargetId: string)
    ensures count == 3 && capacity == 4 && reused
    ensures third.name == "hates" && thirdTargetId == "enemy"
  {
    var john := new Concept("john", "Person");
    var book1 := new Concept("book1", "Object");
    var mary := new Concept("mary", "Person");
    var enemy := new Concept("enemy", "Person");
    var buffer := new Slot[4];
    buffer[0], buffer[1] := Slot("owns", book1), Slot("likes", mary);
    john.slots, john.slotCount, john.slotCapacity := buffer, 2, 4;
    assert IsPowerOfTwo(2);
    assert john.Valid();
    ghost var copied := AddSlot(john, Some("hates"), enemy);
    assert copied == 0 && john.slots == buffer && john.slotCount == 3;
    assert john.Contents()[2] == Slot("hates", enemy);
    count, capacity, reused := john.slotCount, john.slotCapacity, john.slots == buffer;
    third := john.slots[2];
    thirdTargetId := john.slots[2].target.id;
  }
}
