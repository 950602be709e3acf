/** `CategoriesService`: the category directory. Categories are kept in a
    sequence in insertion order, and the model takes that to be the order in
    which the store's unsorted queries visit them. Membership checks delegate
    to the player directory. */
module Categories {
  import opened Common
  import Seqs
  import opened Players

  /** A scoring event of a category; stored, never evaluated. */
  datatype Event = Event(name: string, operation: string, value: int)

  /** A stored category document; `players` holds member player ids. */
  datatype Category = Category(id: Id, category: string, description: string, events: seq<Event>, players: seq<Id>)

  /** The body of a create: the member list may be absent. */
  datatype CategoryDto = CategoryDto(category: string, description: string, events: seq<Event>, players: Option<seq<Id>>)

  /** The body of an update, written with `$set`: absent fields stay. */
  datatype CategoryPatch = CategoryPatch(category: Option<string>, description: Option<string>,
                                         events: Option<seq<Event>>, players: Option<seq<Id>>)

  /** The category after `$set` has written the supplied fields. */
  function PatchedCategory(c: Category, patch: CategoryPatch): Category {
    Category(c.id,
             match patch.category case Some(v) => v case None => c.category,
             match patch.description case Some(v) => v case None => c.description,
             match patch.events case Some(v) => v case None => c.events,
             match patch.players case Some(v) => v case None => c.players)
  }

  function InvalidCategoryId(id: Id): string {
    "ID de categoria inválido: " + id
  }

  function CategoryNotFound(id: Id): string {
    "Category with id " + id + " not found"
  }

  /** No two stored categories share an id. */
  ghost predicate IdsDistinct(categories: seq<Category>) {
    forall i, j | 0 <= i < j < |categories| :: categories[i].id != categories[j].id
  }

  class CategoriesService {
    const playersService: PlayersService
    /** The category collection, in insertion order. */
    var categories: seq<Category>

    ghost predicate Valid()
      reads this
    {
      IdsDistinct(categories)
    }

    constructor (playersService: PlayersService)
      ensures Valid()
      ensures this.playersService == playersService && categories == []
    {
      this.playersService := playersService;
      categories := [];
    }

    /** Position of the category with this id (`findById`). */
    function IndexOf(id: Id): Option<nat>
      reads this
    {
      Seqs.FirstIndex(categories, (c: Category) => c.id == id)
    }

    /** `list`: the stored categories, in store order. */
    function List(): (r: seq<Category>)
      reads this
      ensures |r| == |categories| && forall i :: 0 <= i < |r| ==> r[i] == categories[i]
    {
      categories
    }

    /** `categoryExists`: a malformed or empty id is a bad request, an id no
        category has is not found, otherwise that category comes back. */
    function CategoryExists(id: Id): (r: Result<Category>)
      reads this
      ensures r.Ok? <==> playersService.WellFormed(id) && exists i :: 0 <= i < |categories| && categories[i].id == id
      ensures r.Ok? ==> r.value in categories && r.value.id == id
      ensures !playersService.WellFormed(id) ==> r == Err(BadRequest(InvalidCategoryId(id)))
      ensures playersService.WellFormed(id) && (forall i :: 0 <= i < |categories| ==> categories[i].id != id) ==>
                r == Err(NotFound(CategoryNotFound(id)))
    {
      if id == "" || !playersService.isValidId(id) then Err(BadRequest(InvalidCategoryId(id)))
      else match IndexOf(id)
        case None => Err(NotFound(CategoryNotFound(id)))
        case Some(i) => Ok(categories[i])
    }

    /** `findById` answers as `categoryExists` does. */
    function FindById(id: Id): (r: Result<Category>)
      reads this
      ensures r == CategoryExists(id)
    {
      CategoryExists(id)
    }

    /** `getCategoryByPlayer`: the id and the player's existence are checked
        first; then the first category, in store order, whose members include
        the player, or none when no category does. */
    function GetCategoryByPlayer(playerId: Id): (r: Result<Option<Category>>)
      reads this, playersService
      ensures !playersService.WellFormed(playerId) ==> r == Err(BadRequest(InvalidPlayerId(playerId)))
      ensures playersService.WellFormed(playerId) && playerId !in playersService.players ==>
                r == Err(NotFound(PlayerNotFound))
      ensures r.Ok? <==> playersService.GetPlayer(playerId).Ok?
      ensures r.Ok? && r.value.None? ==> forall i :: 0 <= i < |categories| ==> playerId !in categories[i].players
      ensures r.Ok? && r.value.Some? ==>
                exists i :: && 0 <= i < |categories| && categories[i] == r.value.value
                            && playerId in categories[i].players
                            && forall j :: 0 <= j < i ==> playerId !in categories[j].players
    {
      if playerId == "" || !playersService.isValidId(playerId) then Err(BadRequest(InvalidPlayerId(playerId)))
      else match playersService.CheckPlayerExists(playerId)
        case Err(e) => Err(e)
        case Ok(_) =>
          match Seqs.FirstIndex(categories, (c: Category) => playerId in c.players)
          case None => Ok(None)
          case Some(i) => Ok(Some(categories[i]))
    }

    /** `create`: stores one category, under the fresh id the store
        generates, whose member list is the supplied one or empty. */
    method Create(dto: CategoryDto, newId: Id) returns (c: Category)
      requires Valid()
      requires playersService.WellFormed(newId)
      requires forall i :: 0 <= i < |categories| ==> categories[i].id != newId
      modifies this
      ensures Valid()
      ensures c.id == newId && c.category == dto.category && c.description == dto.description && c.events == dto.events
      ensures c.players == match dto.players case Some(ps) => ps case None => []
      ensures categories == old(categories) + [c]
      ensures CategoryExists(newId) == Ok(c)
    {
      var members := match dto.players case Some(ps) => ps case None => [];
      c := Category(newId, dto.category, dto.description, dto.events, members);
      categories := categories + [c];
      assert categories[|categories| - 1] == c;
      assert IndexOf(newId) == Some(|categories| - 1);
    }

    /** `update`: a missing category fails as `categoryExists` does and
        changes nothing; otherwise the supplied fields replace that one
        category's fields. */
    method Update(id: Id, patch: CategoryPatch) returns (r: Result<Category>)
      requires Valid()
      modifies this
      ensures Valid()
      ensures r.Err? <==> old(CategoryExists(id)).Err?
      ensures r.Err? ==> r == old(CategoryExists(id)) && categories == old(categories)
      ensures r.Ok? ==> && old(IndexOf(id)).Some?
                        && var i := old(IndexOf(id)).value;
                        && i < |old(categories)| && old(categories)[i].id == id
                        && r.value == PatchedCategory(old(categories)[i], patch)
                        && categories == old(categories)[i := r.value]
    {
      var found := CategoryExists(id);
      if found.Err? {
        return Err(found.error);
      }
      var i := IndexOf(id).value;
      var updated := PatchedCategory(categories[i], patch);
      categories := categories[i := updated];
      r := Ok(updated);
    }

    /** What the `Promise.all` of `addPlayerToCategory` rejects with, if
        anything. Both checks throw a malformed id before their first
        `await`, so those rejections settle at once and in array order: the
        player's id first, then the category's. Only then do the two
        existence lookups, which wait on the store, settle; the player's is
        taken first. */
    function AddPlayerCheck(id: Id, playerId: Id): (r: Option<Error>)
      reads this, playersService
      ensures !playersService.WellFormed(playerId) ==> r == Some(BadRequest(InvalidPlayerId(playerId)))
      ensures playersService.WellFormed(playerId) && !playersService.WellFormed(id) ==>
                r == Some(BadRequest(InvalidCategoryId(id)))
      ensures playersService.WellFormed(playerId) && playersService.WellFormed(id) && playerId !in playersService.players ==>
                r == Some(NotFound(PlayerNotFound))
      ensures playersService.WellFormed(playerId) && playerId in playersService.players && CategoryExists(id).Err? ==>
                r == Some(CategoryExists(id).error)
      ensures r.None? <==> playersService.CheckPlayerExists(playerId).Ok? && CategoryExists(id).Ok?
    {
      if playerId == "" || !playersService.isValidId(playerId) then Some(BadRequest(InvalidPlayerId(playerId)))
      else if id == "" || !playersService.isValidId(id) then Some(BadRequest(InvalidCategoryId(id)))
      else match playersService.CheckPlayerExists(playerId)
        case Err(e) => Some(e)
        case Ok(_) =>
          match CategoryExists(id)
          case Err(e) => Some(e)
          case Ok(_) => None
    }

    /** `addPlayerToCategory`: the player and the category must both exist;
        if a check fails, its error (as `AddPlayerCheck` orders them) comes
        back and nothing changes. Otherwise the player id is appended to the
        end of that category's members, with no duplicate check. */
    method AddPlayerToCategory(id: Id, playerId: Id) returns (r: Result<Category>)
      requires Valid()
      modifies this
      ensures Valid()
      ensures r.Err? <==> old(AddPlayerCheck(id, playerId)).Some?
      ensures r.Err? ==> r.error == old(AddPlayerCheck(id, playerId)).value && categories == old(categories)
      ensures r.Ok? ==> && old(IndexOf(id)).Some?
                        && var i := old(IndexOf(id)).value;
                        && i < |old(categories)| && old(categories)[i].id == id
                        && r.value == old(categories)[i].(players := old(categories)[i].players + [playerId])
                        && categories == old(categories)[i := r.value]
      ensures r.Ok? ==> GetCategoryByPlayer(playerId).Ok? && GetCategoryByPlayer(playerId).value.Some?
    {
      if playerId == "" || !playersService.isValidId(playerId) {
        return Err(BadRequest(InvalidPlayerId(playerId)));
      }
      if id == "" || !playersService.isValidId(id) {
        return Err(BadRequest(InvalidCategoryId(id)));
      }
      var present := playersService.CheckPlayerExists(playerId);
      if present.Err? {
        return Err(present.error);
      }
      var found := CategoryExists(id);
      if found.Err? {
        return Err(found.error);
      }
      var i := IndexOf(id).value;
      var updated := categories[i].(players := categories[i].players + [playerId]);
      categories := categories[i := updated];
      assert playerId in categories[i].players;
      r := Ok(updated);
    }
  }
}
