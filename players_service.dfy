/** `PlayersService`: the player directory. Each operation runs a ladder of
    guards (identifier, existence, email uniqueness) and then makes one
    change to the player collection, modelled as a map from id to player. */
module Players {
  import opened Common

  /** A stored player document. */
  datatype Player = Player(id: Id, phone: string, email: string, name: string)

  /** The body of a create (CreatePlayerDto) or of a full update. */
  datatype PlayerDto = PlayerDto(phone: string, email: string, name: string)

  /** The body of a partial update: each field may be absent. */
  datatype PlayerPatch = PlayerPatch(phone: Option<string>, email: Option<string>, name: Option<string>)

  /** A full update supplies every field. */
  function FullPatch(dto: PlayerDto): PlayerPatch {
    PlayerPatch(Some(dto.phone), Some(dto.email), Some(dto.name))
  }

  /** The player after `findByIdAndUpdate` has written the supplied fields. */
  function Patched(p: Player, patch: PlayerPatch): Player {
    Player(p.id,
           match patch.phone case Some(v) => v case None => p.phone,
           match patch.email case Some(v) => v case None => p.email,
           match patch.name case Some(v) => v case None => p.name)
  }

  function InvalidPlayerId(id: Id): string {
    "ID de jogador inválido: " + id
  }

  const PlayerNotFound := "Player not found"
  const EmailTaken := "Email already exists"

  /** Some stored player has this email (`findOne({ email })`). */
  predicate HoldsEmail(players: map<Id, Player>, email: string) {
    exists k | k in players :: players[k].email == email
  }

  /** An update runs the email check only when the supplied email is truthy. */
  predicate ChecksEmail(patch: PlayerPatch) {
    patch.email.Some? && patch.email.value != ""
  }

  /** Two distinct players never share a non-empty email. */
  ghost predicate NonEmptyEmailsUnique(players: map<Id, Player>) {
    forall a, b | a in players && b in players && a != b && players[a].email == players[b].email ::
      players[a].email == ""
  }

  class PlayersService {
    /** Mongoose's `isValidObjectId`, left uninterpreted. */
    const isValidId: Id -> bool
    /** The player collection, by id. */
    var players: map<Id, Player>

    ghost predicate Valid()
      reads this
    {
      && (forall k | k in players :: players[k].id == k)
      && NonEmptyEmailsUnique(players)
    }

    constructor (isValidId: Id -> bool)
      ensures Valid()
      ensures this.isValidId == isValidId && players == map[]
    {
      this.isValidId := isValidId;
      players := map[];
    }

    /** The guard `!id || !isValidObjectId(id)` fails. */
    predicate WellFormed(id: Id) {
      id != "" && isValidId(id)
    }

    /** `list`: every stored player (the collection's order is not kept). */
    function List(): (r: set<Player>)
      requires Valid()
      reads this
      ensures forall k :: k in players ==> players[k] in r
      ensures forall p :: p in r ==> p.id in players && players[p.id] == p
    {
      players.Values
    }

    /** `getPlayer`: a malformed or empty id is a bad request, an absent one
        is not found, otherwise the stored player comes back. */
    function GetPlayer(id: Id): (r: Result<Player>)
      reads this
      ensures r.Ok? <==> WellFormed(id) && id in players
      ensures r.Ok? ==> r.value == players[id]
      ensures !WellFormed(id) ==> r == Err(BadRequest(InvalidPlayerId(id)))
      ensures WellFormed(id) && id !in players ==> r == Err(NotFound(PlayerNotFound))
    {
      if id == "" || !isValidId(id) then Err(BadRequest(InvalidPlayerId(id)))
      else if id !in players then Err(NotFound(PlayerNotFound))
      else Ok(players[id])
    }

    /** `emailExists`: throws Conflict when any stored player has the email,
        and otherwise answers false; it never answers true. */
    function EmailExists(email: string): (r: Result<bool>)
      reads this
      ensures r.Err? <==> exists k :: k in players && players[k].email == email
      ensures r.Err? ==> r.error == Conflict(EmailTaken)
      ensures r != Ok(true)
    {
      if HoldsEmail(players, email) then Err(Conflict(EmailTaken)) else Ok(false)
    }

    /** `checkPlayerExists`: never answers false; it answers true exactly
        when `getPlayer` would succeed and otherwise throws what `getPlayer`
        throws. */
    function CheckPlayerExists(id: Id): (r: Result<bool>)
      reads this
      ensures r != Ok(false)
      ensures r.Ok? <==> GetPlayer(id).Ok?
      ensures r.Err? ==> r.error == GetPlayer(id).error
    {
      if id == "" || !isValidId(id) then Err(BadRequest(InvalidPlayerId(id)))
      else if id !in players then Err(NotFound(PlayerNotFound))
      else Ok(true)
    }

    /** The guard ladder of `updatePlayer`: the id, then the player's
        existence, then (for a truthy supplied email) email uniqueness. */
    function UpdateCheck(id: Id, patch: PlayerPatch): (r: Option<Error>)
      reads this
      ensures !WellFormed(id) ==> r == Some(BadRequest(InvalidPlayerId(id)))
      ensures WellFormed(id) && id !in players ==> r == Some(NotFound(PlayerNotFound))
      ensures WellFormed(id) && id in players && ChecksEmail(patch) && HoldsEmail(players, patch.email.value) ==>
                r == Some(Conflict(EmailTaken))
      ensures r.None? <==> GetPlayer(id).Ok? && !(ChecksEmail(patch) && HoldsEmail(players, patch.email.value))
    {
      if id == "" || !isValidId(id) then Some(BadRequest(InvalidPlayerId(id)))
      else match CheckPlayerExists(id)
        case Err(e) => Some(e)
        case Ok(_) =>
          if patch.email.Some? && patch.email.value != "" then
            match EmailExists(patch.email.value)
            case Err(e) => Some(e)
            case Ok(_) => None
          else None
    }

    /** Supplying the email a player already has is a conflict too: the
        uniqueness check does not exclude the player being updated. */
    lemma OwnEmailConflicts(id: Id, patch: PlayerPatch)
      requires WellFormed(id) && id in players
      requires players[id].email != "" && patch.email == Some(players[id].email)
      ensures UpdateCheck(id, patch) == Some(Conflict(EmailTaken))
    {
    }

    /** `create`: a taken email is a conflict and stores nothing; otherwise
        exactly one player, carrying the given fields under the fresh id that
        the store generates, is added. */
    method Create(dto: PlayerDto, newId: Id) returns (r: Result<Player>)
      requires Valid()
      requires WellFormed(newId) && newId !in players
      modifies this
      ensures Valid()
      ensures HoldsEmail(old(players), dto.email) ==> r == Err(Conflict(EmailTaken)) && players == old(players)
      ensures !HoldsEmail(old(players), dto.email) ==>
                && r == Ok(Player(newId, dto.phone, dto.email, dto.name))
                && players == old(players)[newId := r.value]
                && |players| == |old(players)| + 1
      ensures r.Ok? ==> GetPlayer(newId) == Ok(r.value)
    {
      var taken := EmailExists(dto.email);
      if taken.Err? {
        return Err(taken.error);
      }
      var created := Player(newId, dto.phone, dto.email, dto.name);
      players := players[newId := created];
      r := Ok(created);
    }

    /** `updatePlayer`: after the guard ladder, overwrite the supplied fields
        of that one player and return it; on any failure nothing changes. */
    method UpdatePlayer(id: Id, patch: PlayerPatch) returns (r: Result<Player>)
      requires Valid()
      modifies this
      ensures Valid()
      ensures r.Err? <==> old(UpdateCheck(id, patch)).Some?
      ensures r.Err? ==> r.error == old(UpdateCheck(id, patch)).value && players == old(players)
      ensures r.Ok? ==> && id in old(players)
                        && r.value == Patched(old(players)[id], patch)
                        && players == old(players)[id := r.value]
      ensures r.Ok? ==> GetPlayer(id) == Ok(r.value)
    {
      if id == "" || !isValidId(id) {
        return Err(BadRequest(InvalidPlayerId(id)));
      }
      var present := CheckPlayerExists(id);
      if present.Err? {
        return Err(present.error);
      }
      if patch.email.Some? && patch.email.value != "" {
        var taken := EmailExists(patch.email.value);
        if taken.Err? {
          return Err(taken.error);
        }
      }
      var updated := Patched(players[id], patch);
      players := players[id := updated];
      r := Ok(updated);
    }

    /** `update` (PUT): every field is supplied. */
    method Update(id: Id, dto: PlayerDto) returns (r: Result<Player>)
      requires Valid()
      modifies this
      ensures Valid()
      ensures r.Err? <==> old(UpdateCheck(id, FullPatch(dto))).Some?
      ensures r.Err? ==> r.error == old(UpdateCheck(id, FullPatch(dto))).value && players == old(players)
      ensures r.Ok? ==> && id in old(players)
                        && r.value == Player(id, dto.phone, dto.email, dto.name)
                        && players == old(players)[id := r.value]
    {
      r := UpdatePlayer(id, FullPatch(dto));
    }

    /** `updatePartial` (PATCH): only the supplied fields change. */
    method UpdatePartial(id: Id, patch: PlayerPatch) returns (r: Result<Player>)
      requires Valid()
      modifies this
      ensures Valid()
      ensures r.Err? <==> old(UpdateCheck(id, patch)).Some?
      ensures r.Err? ==> r.error == old(UpdateCheck(id, patch)).value && players == old(players)
      ensures r.Ok? ==> && id in old(players)
                        && r.value == Patched(old(players)[id], patch)
                        && players == old(players)[id := r.value]
    {
      r := UpdatePlayer(id, patch);
    }

    /** `removePlayer`: an existing player is deleted and returned; a
        malformed or absent id fails as `getPlayer` does and deletes nothing. */
    method RemovePlayer(id: Id) returns (r: Result<Player>)
      requires Valid()
      modifies this
      ensures Valid()
      ensures r == old(GetPlayer(id))
      ensures r.Err? ==> players == old(players)
      ensures r.Ok? ==> players == old(players) - {id}
      ensures r.Ok? ==> GetPlayer(id) == Err(NotFound(PlayerNotFound))
    {
      if id == "" || !isValidId(id) {
        return Err(BadRequest(InvalidPlayerId(id)));
      }
      var present := CheckPlayerExists(id);
      if present.Err? {
        return Err(present.error);
      }
      var deleted := players[id];
      players := players - {id};
      r := Ok(deleted);
    }
  }
}
