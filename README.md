# Concept slot buffer of the clarity knowledge graph

This project models the core of `src/concept.c` in the clarity repository.
A *concept* is a node of a symbolic knowledge graph. It has an identifier, a type
string and an ordered list of *slots*. Each slot is a named, directed relation to
another concept. The slots live in a buffer that the concept owns and grows in place.

- `wrappers.dfy` (module `Wrappers`): `Option`. It stands for a C pointer argument that may be NULL.
- `growth.dfy` (module `SlotGrowth`): the growth rule of the slot buffer as pure functions.
  An empty buffer grows to 2 cells and a full one doubles. Lemmas state what repeated appends cost.
- `concept.dfy` (module `Concepts`): the `Slot` record and the `Concept` class, with the fields of
  `include/concept.h:69-80`. The constructor models `create_concept`. The method `AddSlot` models
  `add_slot`, including its three NULL guards. `Reallocate` stands for `realloc`: it allocates a fresh
  array and copies the used prefix into it.

`Concept.Valid()` holds after `create_concept` and is preserved by `AddSlot`. It says:
- the buffer is NULL exactly when the capacity is 0;
- the buffer length equals the capacity;
- `slotCount <= slotCapacity`;
- the capacity is 0 or a power of two of at least 2;
- every stored slot has a non-NULL target.

`Concept.Contents()` is the sequence of stored slots in insertion order. `AddSlot` is specified against it.

Strings are Dafny values, so the copies made by `strdup` are implicit: a concept never shares
string storage with its caller. A slot's target is a plain reference to another `Concept` and is
never owned or modified through the slot.

Three facts about the code shape the model:
- the type is a single string (include/concept.h:76);
- a new concept has no buffer (src/concept.c:197), and the first `add_slot` allocates two cells;
- a NULL argument makes `add_slot` return silently (src/concept.c:104-106).

The source has typos that would stop it compiling: `concet` and `size_of` in `add_slot`,
missing semicolons after the structs, and a header prototype of `create_concept` that returns `void`.
The model follows the evident intent. The definition in `src/concept.c:178` returns the new concept.

## Model

| member | source | states |
|---|---|---|
| `SlotGrowth.GrowCapacity` | src/concept.c:110 | the grown capacity is larger than the old one and at least 2, and it is again 0 or a power of two of at least 2 when the old one was |
| `SlotGrowth.CapacityForNext` | src/concept.c:109-118 | after making room, index `slot_count` is inside the buffer; with free room the capacity is unchanged; a full buffer gets the grown capacity |
| `SlotGrowth.CapacityAfterAppendsBounds` | src/concept.c:88-90 | after n appends to a new concept, the capacity is between n and 2n and is 0 or a power of two of at least 2 |
| `SlotGrowth.CopiesAfterAppendsBound` | src/concept.c:109-118 | after n > 0 appends, the slots copied by all regrowths are exactly capacity - 2, so at most 2n: appending costs amortized constant time |
| `Concepts.Concept.constructor` | src/concept.c:178-202 | the new concept has the given id and types, no buffer, count 0 and capacity 0, no slots, and satisfies the buffer invariant |
| `Concepts.Reallocate` | src/concept.c:111-116 | the new buffer is fresh, has the requested capacity and starts with the old buffer's used slots; the number of slots copied equals the count carried over |
| `Concepts.AddSlot` | src/concept.c:103-127 | a NULL concept, name or target changes nothing, including the buffer's contents. Otherwise: the count goes up by one; the slots are the old slots followed by (name, target); the capacity follows the growth rule (a full buffer of capacity 0 becomes 2, any other full buffer doubles); the buffer is reused when it had room and is fresh when it was full; the slots copied are 0 with room and the old count when full, and on a concept grown by appends alone they add up to `CopiesAfterAppends`; id and types are unchanged; the invariant is preserved; the target concept is unchanged |
| `Concepts.ThreeSlotScenario` | src/concept.c:84-90 | three appends to a new concept: the third finds the two-cell buffer full and regrows it to four cells, leaving count 3, capacity 4, names owns, likes, hates and targets book1, mary, enemy in that order |
| `Concepts.CommentExample` | src/concept.c:67-77 | the add_slot comment's example: from count 2 and capacity 4 holding owns and likes, adding hates leaves count 3, capacity 4, the same buffer, and slot 2 is hates with target enemy |

## Left out

- `print_concept` (src/concept.c:43-59): it only formats output to stdout.
- `free_concept` (src/concept.c:241-254): Dafny has no explicit deallocation. Note that the source frees a slot's name but never its target, which matches the model's non-owning target.
- Allocation failure: `create_concept` prints to stderr and calls `exit(1)` when `malloc` or one of its `strdup` calls fails (src/concept.c:180-195), and `add_slot` does the same when `realloc` fails (src/concept.c:112-115). The model assumes allocation always succeeds.
- AddSlot: the `strdup` of the slot name in `add_slot` (src/concept.c:122) is not checked, so on failure the source stores a NULL name and still increments the count. The model's names are values and cannot be NULL, so this case is not modelled.
- `src/main.c` is a demo program and is not part of this model.
- Lookup of a concept by identifier is only a note for later in include/concept.h:62-63 and has no code, so it is not modelled.
- `GrowCapacity`: capacities are unbounded naturals. In the source `slot_capacity` is a C `int`, and doubling it overflows once it reaches 2^30; the model does not reproduce that overflow.
- AddSlot: the target's slots are proved unchanged only when the target has no buffer yet or its buffer is not the source concept's buffer. In the source each concept's buffer comes from its own `realloc`, so two concepts never share a non-NULL buffer, but the model has no global store to state that once for all concepts.
- `Concept.Valid()` does not require the capacity to equal the one reached by appends alone. The comment example in the source starts from count 2 with capacity 4, a state that appends alone never produce. `AddSlot` proves instead that the appends-only capacity is kept when it held before.
