/** `MatchesService`: the match recorder. `createMatch` validates the winner,
    then each player in list order, then that the winner takes part, then that
    the category name resolves, and only then appends the match. The finders
    filter the stored matches, kept in insertion order. */
module Matches {
  import opened Common
  import Seqs
  import opened Players

  /** One set's score, `{ set: "6-4" }`. */
  datatype SetResult = SetResult(score: string)

  /** A stored match document; `def` is the winner's player id. */
  datatype Match = Match(id: Id, category: string, players: seq<Id>, def: Id, result: seq<SetResult>)

  /** The body of `createMatch` (CreateMatchDto). */
  datatype MatchDto = MatchDto(category: string, players: seq<Id>, def: Id, result: seq<SetResult>)

  function InvalidWinnerId(id: Id): string {
    "ID de jogador vencedor inválido: " + id
  }

  const WinnerNotAPlayer := "O jogador vencedor deve estar na lista de jogadores da partida"

  function InvalidMatchId(id: Id): string {
    "ID de partida inválido: " + id
  }

  function MatchNotFound(id: Id): string {
    "Partida " + id + " não encontrada"
  }

  /** The message of the category-name lookup's NotFound. */
  function CategoryNameNotFound(name: string): string {
    "Category " + name + " not found"
  }

  /** The filter of `find({ category })`. */
  function HasCategory(category: string): Match -> bool {
    (m: Match) => m.category == category
  }

  /** The filter of `find({ players: { $in: [playerId] } })`. */
  function HasPlayer(playerId: Id): Match -> bool {
    (m: Match) => playerId in m.players
  }

  /** No two stored matches share an id. */
  ghost predicate IdsDistinct(matches: seq<Match>) {
    forall i, j | 0 <= i < j < |matches| :: matches[i].id != matches[j].id
  }

  /** Every stored winner is one of that match's players. */
  ghost predicate WinnersArePlayers(matches: seq<Match>) {
    forall i | 0 <= i < |matches| :: matches[i].def in matches[i].players
  }

  class MatchesService {
    const playersService: PlayersService
    /** The categories service's `getCategoryByName`, which the categories
        service does not define: does a category of this name resolve? */
    const categoryNameResolves: string -> bool
    /** The match collection, in insertion order. */
    var matches: seq<Match>

    ghost predicate Valid()
      reads this
    {
      IdsDistinct(matches) && WinnersArePlayers(matches)
    }

    constructor (playersService: PlayersService, categoryNameResolves: string -> bool)
      ensures Valid()
      ensures this.playersService == playersService && this.categoryNameResolves == categoryNameResolves
      ensures matches == []
    {
      this.playersService := playersService;
      this.categoryNameResolves := categoryNameResolves;
      matches := [];
    }

    /** What the loop of `createMatch` throws for one player, if anything:
        BadRequest for a malformed id, else what `getPlayer` throws. */
    function PlayerError(playerId: Id): (r: Option<Error>)
      reads playersService
      ensures r.None? <==> playersService.GetPlayer(playerId).Ok?
      ensures r.Some? ==> r.value == playersService.GetPlayer(playerId).error
    {
      if !playersService.isValidId(playerId) then Some(BadRequest(InvalidPlayerId(playerId)))
      else match playersService.GetPlayer(playerId)
        case Err(e) => Some(e)
        case Ok(_) => None
    }

    /** What the loop of `createMatch` throws for the whole list: the error of
        the first failing player, in list order. */
    function PlayersError(ps: seq<Id>): (r: Option<Error>)
      reads playersService
      ensures r.None? <==> forall i :: 0 <= i < |ps| ==> playersService.GetPlayer(ps[i]).Ok?
      ensures r.Some? ==> exists k :: && 0 <= k < |ps| && r == PlayerError(ps[k])
                                      && forall j :: 0 <= j < k ==> PlayerError(ps[j]).None?
    {
      if ps == [] then None
      else match PlayerError(ps[0])
        case Some(e) => Some(e)
        case None =>
          var rest := PlayersError(ps[1..]);
          assert rest.Some? ==> exists k :: && 0 <= k < |ps[1..]| && rest == PlayerError(ps[1..][k])
                                            && forall j :: 0 <= j < k ==> PlayerError(ps[1..][j]).None?;
          rest
    }

    /** The whole validation ladder of `createMatch`, in order. */
    function MatchError(dto: MatchDto): (r: Option<Error>)
      reads playersService
      ensures !playersService.isValidId(dto.def) ==> r == Some(BadRequest(InvalidWinnerId(dto.def)))
      ensures playersService.isValidId(dto.def) && PlayersError(dto.players).Some? ==> r == PlayersError(dto.players)
      ensures playersService.isValidId(dto.def) && PlayersError(dto.players).None? && dto.def !in dto.players ==>
                r == Some(BadRequest(WinnerNotAPlayer))
      ensures dto.players == [] ==> r.Some? && r.value.BadRequest?
      ensures r.None? <==> && playersService.isValidId(dto.def)
                           && (forall i :: 0 <= i < |dto.players| ==> playersService.GetPlayer(dto.players[i]).Ok?)
                           && dto.def in dto.players
                           && categoryNameResolves(dto.category)
      ensures && playersService.isValidId(dto.def) && PlayersError(dto.players).None? && dto.def in dto.players
              && !categoryNameResolves(dto.category) ==>
                r == Some(NotFound(CategoryNameNotFound(dto.category)))
    {
      if !playersService.isValidId(dto.def) then Some(BadRequest(InvalidWinnerId(dto.def)))
      else match PlayersError(dto.players)
        case Some(e) => Some(e)
        case None =>
          if dto.def !in dto.players then Some(BadRequest(WinnerNotAPlayer))
          else if !categoryNameResolves(dto.category) then Some(NotFound(CategoryNameNotFound(dto.category)))
          else None
    }

    /** `findAll`: every stored match, in store order. */
    function FindAll(): (r: seq<Match>)
      reads this
      ensures |r| == |matches| && forall i :: 0 <= i < |r| ==> r[i] == matches[i]
    {
      matches
    }

    /** `findById`: a malformed or empty id is a bad request, an id no match
        has is not found, otherwise that match comes back. */
    function FindById(id: Id): (r: Result<Match>)
      reads this
      ensures r.Ok? <==> playersService.WellFormed(id) && exists i :: 0 <= i < |matches| && matches[i].id == id
      ensures r.Ok? ==> r.value in matches && r.value.id == id
      ensures !playersService.WellFormed(id) ==> r == Err(BadRequest(InvalidMatchId(id)))
      ensures playersService.WellFormed(id) && (forall i :: 0 <= i < |matches| ==> matches[i].id != id) ==>
                r == Err(NotFound(MatchNotFound(id)))
    {
      if id == "" || !playersService.isValidId(id) then Err(BadRequest(InvalidMatchId(id)))
      else match Seqs.FirstIndex(matches, (m: Match) => m.id == id)
        case None => Err(NotFound(MatchNotFound(id)))
        case Some(i) => Ok(matches[i])
    }

    /** `findByPlayerId`: fails as `getPlayer` does for a malformed or absent
        player, otherwise gives exactly the matches the player took part in. */
    function FindByPlayerId(playerId: Id): (r: Result<seq<Match>>)
      reads this, playersService
      ensures r.Ok? <==> playersService.GetPlayer(playerId).Ok?
      ensures r.Err? ==> r.error == playersService.GetPlayer(playerId).error
      ensures r.Ok? ==> forall i :: 0 <= i < |r.value| ==> r.value[i] in matches && playerId in r.value[i].players
      ensures r.Ok? ==> forall i :: 0 <= i < |matches| && playerId in matches[i].players ==> matches[i] in r.value
      ensures r.Ok? ==> r.value == Seqs.Filter(matches, HasPlayer(playerId))
    {
      if playerId == "" || !playersService.isValidId(playerId) then Err(BadRequest(InvalidPlayerId(playerId)))
      else match playersService.GetPlayer(playerId)
        case Err(e) => Err(e)
        case Ok(_) => Ok(Seqs.Filter(matches, HasPlayer(playerId)))
    }

    /** `findByCategory`: fails when the category name does not resolve,
        otherwise gives exactly the matches recorded under that category. */
    function FindByCategory(category: string): (r: Result<seq<Match>>)
      reads this
      ensures r.Err? <==> !categoryNameResolves(category)
      ensures r.Err? ==> r.error == NotFound(CategoryNameNotFound(category))
      ensures r.Ok? ==> forall i :: 0 <= i < |r.value| ==> r.value[i] in matches && r.value[i].category == category
      ensures r.Ok? ==> forall i :: 0 <= i < |matches| && matches[i].category == category ==> matches[i] in r.value
      ensures r.Ok? ==> r.value == Seqs.Filter(matches, HasCategory(category))
    {
      if !categoryNameResolves(category) then Err(NotFound(CategoryNameNotFound(category)))
      else Ok(Seqs.Filter(matches, HasCategory(category)))
    }

    /** `createMatch`: on any failing check of the ladder nothing is stored
        and the first failure is thrown; otherwise exactly one match, with
        exactly the given fields and the fresh id the store generates, is
        appended, and every finder sees it. */
    method CreateMatch(dto: MatchDto, newId: Id) returns (r: Result<Match>)
      requires Valid()
      requires playersService.WellFormed(newId)
      requires forall i :: 0 <= i < |matches| ==> matches[i].id != newId
      modifies this
      ensures Valid()
      ensures r.Err? <==> MatchError(dto).Some?
      ensures r.Err? ==> r.error == MatchError(dto).value && matches == old(matches)
      ensures r.Ok? ==> && r.value == Match(newId, dto.category, dto.players, dto.def, dto.result)
                        && matches == old(matches) + [r.value]
                        && r.value.def in r.value.players
      ensures r.Ok? ==> FindById(newId) == Ok(r.value)
      ensures r.Ok? ==> forall p :: p in dto.players ==> FindByPlayerId(p).Ok? && r.value in FindByPlayerId(p).value
      ensures r.Ok? ==> && old(FindByCategory(dto.category)).Ok?
                        && FindByCategory(dto.category) == Ok(old(FindByCategory(dto.category)).value + [r.value])
    {
      if !playersService.isValidId(dto.def) {
        return Err(BadRequest(InvalidWinnerId(dto.def)));
      }
      for i := 0 to |dto.players|
        invariant PlayersError(dto.players) == PlayersError(dto.players[i..])
      {
        var playerId := dto.players[i];
        if !playersService.isValidId(playerId) {
          return Err(BadRequest(InvalidPlayerId(playerId)));
        }
        var found := playersService.GetPlayer(playerId);
        if found.Err? {
          return Err(found.error);
        }
        assert dto.players[i..][1..] == dto.players[i + 1..];
      }
      assert dto.players[|dto.players|..] == [];
      if dto.def !in dto.players {
        return Err(BadRequest(WinnerNotAPlayer));
      }
      if !categoryNameResolves(dto.category) {
        return Err(NotFound(CategoryNameNotFound(dto.category)));
      }
      var created := Match(newId, dto.category, dto.players, dto.def, dto.result);
      ghost var before := matches;
      Seqs.FilterAppend(matches, [created], HasCategory(dto.category));
      assert HasCategory(dto.category)(created);
      assert [created][1..] == [];
      assert Seqs.Filter([created], HasCategory(dto.category)) == [created];
      matches := matches + [created];
      assert FindByCategory(dto.category) == Ok(Seqs.Filter(before, HasCategory(dto.category)) + [created]);
      assert matches[|matches| - 1] == created;
      assert Seqs.FirstIndex(matches, (m: Match) => m.id == newId) == Some(|matches| - 1);
      r := Ok(created);
    }
  }
}
