/** Identity of drawable objects. The source keeps a function-local static
    counter inside createGameObject; here that counter is an explicit object
    owned by whoever creates game objects. */
module GameObjects {

  /** `GameObject::id_t`, an `unsigned int` (32 bits). */
  newtype IdT = x: int | 0 <= x < 0x1_0000_0000

  const ID_SPACE: nat := 0x1_0000_0000

  /** The id handed out by the `k`-th call of createGameObject (counting from
      0): the post-increment of an unsigned 32-bit counter wraps around. */
  function IdOf(k: nat): (id: IdT)
    ensures k < ID_SPACE ==> id as int == k
  {
    (k % ID_SPACE) as IdT
  }

  /** Ids of the first 2^32 calls are pairwise distinct. */
  lemma IdsDistinctBeforeWrap(i: nat, j: nat)
    requires i < j < ID_SPACE
    ensures IdOf(i) != IdOf(j)
  {
  }

  /** After 2^32 calls the ids repeat: call k + 2^32 gets the id of call k
      (so call 2^32 repeats call 0). */
  lemma IdsRepeatAfterWrap(k: nat)
    ensures IdOf(k + ID_SPACE) == IdOf(k)
    ensures IdOf(ID_SPACE) == IdOf(0) == 0
  {
  }

  /** A game object; its id is fixed at construction. (Move assignment,
      which overwrites the target's id, is not modelled.) */
  class GameObject {
    const id: IdT

    constructor (objectId: IdT)
      ensures id == objectId
    {
      id := objectId;
    }

    /** getId. */
    function GetId(): (r: IdT)
      ensures r == id
    {
      id
    }
  }

  /** The static `current_id` of createGameObject, with the ids issued so far. */
  class IdCounter {
    var currentId: IdT
    ghost var issued: seq<IdT>

    ghost predicate Valid()
      reads this
    {
      && currentId == IdOf(|issued|)
      && forall k :: 0 <= k < |issued| ==> issued[k] == IdOf(k)
    }

    /** `static id_t current_id = 0`. */
    constructor ()
      ensures Valid() && issued == [] && currentId == 0
    {
      currentId := 0;
      issued := [];
    }

    /** createGameObject: a new object carrying the current id; the counter
        is incremented afterwards. */
    method CreateGameObject() returns (g: GameObject)
      requires Valid()
      modifies this
      ensures Valid()
      ensures fresh(g)
      ensures g.GetId() == old(currentId) == IdOf(|old(issued)|)
      ensures issued == old(issued) + [g.GetId()]
      ensures currentId == IdOf(|old(issued)| + 1)
    {
      g := new GameObject(currentId);
      issued := issued + [currentId];
      currentId := if currentId as int == ID_SPACE - 1 then 0 else currentId + 1;
    }
  }

  /** As long as at most 2^32 objects were created, no two share an id. */
  lemma IssuedIdsDistinct(issued: seq<IdT>)
    requires |issued| <= ID_SPACE
    requires forall k :: 0 <= k < |issued| ==> issued[k] == IdOf(k)
    ensures forall i, j :: 0 <= i < j < |issued| ==> issued[i] != issued[j]
  {
  }

  /** The first object gets id 0 and the next ones consecutive ids. */
  method CreateGameObjectsScenario()
  {
    var counter := new IdCounter();
    var a := counter.CreateGameObject();
    var b := counter.CreateGameObject();
    assert a.GetId() == 0 && b.GetId() == 1;
    IssuedIdsDistinct(counter.issued);
  }
}
