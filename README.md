# Ladder backend services, modelled in Dafny

This project models the service layer of a NestJS/Mongoose backend for a
tennis-style ranking ladder. Three services own one collection each:

- the player directory (`PlayersService`) keeps players by id;
- the category directory (`CategoriesService`) keeps categories with their
  member player ids;
- the match recorder (`MatchesService`) keeps recorded matches.

Two route-parameter pipes reject falsy parameters.

Each Mongoose collection becomes an in-memory store held by a class:

- players are a `map<Id, Player>`;
- categories and matches are sequences in insertion order. The model
  assumes that the store's unsorted `find` and `findOne` visit documents in
  that order (see "## Left out").

Every service operation is a ladder of guards followed by one change: an
insert, an overwrite, an append or a delete. Operations that change a store
are methods with `modifies this`. Their postconditions give the whole new
state and the result in terms of the old state. Queries are functions that
read the store. A thrown exception is an `Err` of a `Result`, carrying
`BadRequest`, `NotFound` or `Conflict` and the message the source uses.

Files:

- `common.dfy` holds the shared types and `Seqs`, the in-order filter and
  first-match finder that stand for the store's queries.
- `players_service.dfy`, `categories_service.dfy` and `matches_service.dfy`
  hold the three services.
- `validation_parameters_pipe.dfy` and `players_validation_parameters_pipe.dfy`
  hold the two pipes.

Collaborators the source does not show:

- Mongoose's `isValidObjectId` is the constructor parameter
  `PlayersService.isValidId`, left uninterpreted. The other two services use
  the player service's predicate.
- `getCategoryByName` is called by the match service but is not defined in
  `src/categories/categories.service.ts`. It is the constructor parameter
  `MatchesService.categoryNameResolves`: a name either resolves or the call
  throws NotFound.
- The fresh document id that Mongoose generates on an insert is the `newId`
  argument of each create. Its precondition says what the generator
  guarantees: the id is well-formed and no stored document has it.

Where the unit tests and the code disagree, the model follows the code:

- A duplicate email on create is a Conflict (`players.service.ts:48`), not
  the BadRequest the test expects.
- `checkPlayerExists` throws for a missing player and never answers false
  (`players.service.ts:54-64`).

## Model

| member | source | states |
|---|---|---|
| `Players.PlayersService.List` | src/players/players.service.ts:29-32 | the result holds every stored player and nothing else |
| `Players.PlayersService.GetPlayer` | src/players/players.service.ts:34-44 | an empty or malformed id gives BadRequest; a well-formed absent id gives NotFound; it succeeds exactly for a stored id and then returns that player |
| `Players.PlayersService.EmailExists` | src/players/players.service.ts:46-52 | Conflict exactly when some stored player holds the email; it never answers true |
| `Players.PlayersService.CheckPlayerExists` | src/players/players.service.ts:54-64 | never answers false; it succeeds exactly when `GetPlayer` does and otherwise throws the same error |
| `Players.PlayersService.UpdateCheck` | src/players/players.service.ts:70-78 | the update ladder in order: BadRequest for the id, then NotFound, then Conflict when a truthy supplied email is held by any player; it passes exactly when the player exists and no such conflict arises |
| `Players.PlayersService.OwnEmailConflicts` | src/players/players.service.ts:76-78 | supplying a player's own non-empty email is a Conflict, because the check does not exclude the player being updated |
| `Players.PlayersService.Create` | src/players/players.service.ts:20-27 | a held email gives Conflict and leaves the store unchanged; otherwise exactly one player with the given fields is added under the fresh id, the others are untouched, and `GetPlayer` then finds it; non-empty emails stay unique |
| `Players.PlayersService.UpdatePlayer` | src/players/players.service.ts:66-83 | fails exactly when `UpdateCheck` reports an error, with that error and no change; otherwise only the supplied fields of only that player are overwritten, and the updated player is returned |
| `Players.PlayersService.Update` | src/players/players.service.ts:85-87 | runs the same `UpdateCheck` ladder with every field supplied; on success that player carries exactly the given fields |
| `Players.PlayersService.UpdatePartial` | src/players/players.service.ts:89-94 | runs the same `UpdateCheck` ladder; on success only the supplied fields change |
| `Players.PlayersService.RemovePlayer` | src/players/players.service.ts:96-107 | answers what `GetPlayer` answered before the call; on success exactly that player is deleted, and on failure nothing is |
| `Categories.CategoriesService.List` | src/categories/categories.service.ts:26-29 | returns every stored category in store order |
| `Categories.CategoriesService.CategoryExists` | src/categories/categories.service.ts:35-47 | an empty or malformed id gives BadRequest; an id no category has gives NotFound; otherwise it returns a stored category with that id |
| `Categories.CategoriesService.FindById` | src/categories/categories.service.ts:31-33 | answers exactly as `CategoryExists` |
| `Categories.CategoriesService.GetCategoryByPlayer` | src/categories/categories.service.ts:78-90 | rejects a malformed id with BadRequest and an absent player with NotFound before searching; then returns the first category in store order whose members contain the player, or none when no category does |
| `Categories.CategoriesService.Create` | src/categories/categories.service.ts:16-24 | appends one category with the given fields, whose member list is the supplied one or empty when none is given; `CategoryExists` then finds it |
| `Categories.CategoriesService.Update` | src/categories/categories.service.ts:49-60 | fails as `CategoryExists` does and changes nothing; otherwise the supplied fields replace those of the one category with that id, and nothing else changes |
| `Categories.CategoriesService.AddPlayerCheck` | src/categories/categories.service.ts:66-69 | the error the two concurrent checks reject with: a malformed player id, then a malformed category id (both BadRequest, thrown before any lookup), then an absent player (NotFound), then an absent category; none exactly when the player and the category both exist |
| `Categories.CategoriesService.AddPlayerToCategory` | src/categories/categories.service.ts:62-76 | fails exactly when `AddPlayerCheck` reports an error, with that error and nothing changed; otherwise the id is appended at the end of that category's members, with no duplicate check, only that category changes, and `GetCategoryByPlayer` then finds a category for the player |
| `Matches.MatchesService.PlayerError` | src/matches/matches.service.ts:29-34 | the loop's check of one player passes exactly when `GetPlayer` would succeed, and otherwise throws what `GetPlayer` throws: BadRequest for an empty or malformed id, NotFound for an absent one |
| `Matches.MatchesService.PlayersError` | src/matches/matches.service.ts:28-35 | no error exactly when every listed player exists; otherwise the error of the first failing player in list order |
| `Matches.MatchesService.MatchError` | src/matches/matches.service.ts:22-43 | the ladder in order: winner id, then players, then winner membership, then category; it passes exactly when all four hold, and an empty player list is always a BadRequest |
| `Matches.MatchesService.CreateMatch` | src/matches/matches.service.ts:19-59 | fails exactly when `MatchError` reports an error, with that error and nothing stored; otherwise exactly one match with the given fields is appended, its winner is one of its players, and `FindById`, `FindByPlayerId` and `FindByCategory` then see it; stored winners stay among their players |
| `Matches.MatchesService.FindAll` | src/matches/matches.service.ts:61-67 | returns every stored match in store order |
| `Matches.MatchesService.FindById` | src/matches/matches.service.ts:69-86 | an empty or malformed id gives BadRequest; an id no match has gives NotFound; otherwise it returns a stored match with that id |
| `Matches.MatchesService.FindByPlayerId` | src/matches/matches.service.ts:88-102 | fails exactly as `GetPlayer` does; otherwise returns exactly the stored matches whose players contain the id, each as often as it is stored and in store order (the in-order `Filter`) |
| `Matches.MatchesService.FindByCategory` | src/matches/matches.service.ts:104-113 | NotFound exactly when the category name does not resolve; otherwise returns exactly the stored matches with that category, each as often as it is stored and in store order (the in-order `Filter`) |
| `Seqs.Filter` | src/matches/matches.service.ts:97-101 | the filtered list holds only elements of the store that pass, and every passing element |
| `Seqs.FilterMultiplicity` | src/matches/matches.service.ts:108-112 | filtering keeps each passing element as often as it is stored and drops the others |
| `Seqs.FilterAppend` | src/matches/matches.service.ts:108-112 | filtering distributes over concatenation, so store order is kept and a new match shows up at the end of a finder's answer |
| `Seqs.FirstIndex` | src/categories/categories.service.ts:85-89 | the position of the first element that passes, with none before it, or none when no element passes |
| `ValidationParametersPipe.Truthy` | src/common/pipes/validation-parameters/validation-parameters.pipe.ts:11 | a value is falsy exactly when it is undefined, null, false, 0 or the empty string |
| `ValidationParametersPipe.RequiredMessage` | src/common/pipes/validation-parameters/validation-parameters.pipe.ts:12-14 | the message is `The value of the parameter <data> is required` |
| `ValidationParametersPipe.Transform` | src/common/pipes/validation-parameters/validation-parameters.pipe.ts:10-18 | a falsy value gives BadRequest with the required-parameter message; any other value comes back unchanged |
| `ValidationParametersPipe.OnlyDataMatters` | src/common/pipes/validation-parameters/validation-parameters.pipe.ts:10-18 | metadata other than `data` does not affect the outcome |
| `ValidationParametersPipe.TransformIdempotent` | src/common/pipes/validation-parameters/validation-parameters.pipe.ts:17 | feeding an accepted value through the pipe again gives the same answer |
| `ValidationParametersPipe.RejectsNull` | src/common/pipes/validation-parameters/parameters.pipe.spec.ts:27-35 | null for `id` gives BadRequest `The value of the parameter id is required` |
| `ValidationParametersPipe.RejectsUndefined` | src/common/pipes/validation-parameters/parameters.pipe.spec.ts:37-45 | undefined for `playerId` gives the message naming `playerId` |
| `ValidationParametersPipe.RejectsEmptyString` | src/common/pipes/validation-parameters/parameters.pipe.spec.ts:47-55 | the empty string for `categoryId` gives the message naming `categoryId` |
| `ValidationParametersPipe.AcceptsTruthy` | src/common/pipes/validation-parameters/parameters.pipe.spec.ts:15-79 | `"teste"`, `123` and `true` come back unchanged |
| `PlayersValidationParametersPipe.PlayersTransform` | src/players/pipes/players-validation-parameters.pipe.ts:5-12 | a falsy value gives BadRequest naming `metadata.data`; a truthy value comes back unchanged |
| `PlayersValidationParametersPipe.SameAsCommonPipe` | src/players/pipes/players-validation-parameters.pipe.ts:5-12 | on every input the players pipe answers exactly as the common pipe does |

## Left out

- Persistence: Mongoose, MongoDB, `lean`, `exec` and the `$set`, `$push` and
  `$in` operators are modelled only by what the operations above state.
- `populate`: the match finders return the stored player ids, not the
  joined player documents.
- `save()` failures, including the InternalServerErrorException of
  `src/matches/matches.service.ts:53-58`. They are storage faults, not input
  logic.
- `isValidObjectId`: it is a parameter, not its Mongoose definition.
- `getCategoryByName`: it is a parameter, because the categories service does
  not define it. The wording of its NotFound message is assumed.
- Players.PlayersService.List: it returns a set, so the order in which the
  collection lists its players is not modelled.
- Categories.CategoriesService.AddPlayerCheck: the source runs its two
  checks concurrently with `Promise.all`. A malformed id is thrown before any
  lookup, so those errors come first and in array order, as the model has
  them. When the ids are well-formed and neither the player nor the category
  exists, the error the source reports depends on which lookup finishes
  first; the model reports the player's NotFound.
- Store order: MongoDB does not promise any order for an unsorted `find` or
  `findOne`. The model assumes insertion order. This decides which category
  `GetCategoryByPlayer` returns for a player who belongs to several
  categories, and the order of the match finders' answers.
- Player fields: `ranking`, `rankingPosition` and `avatar` are never written
  by the service and are not modelled. Neither is the `_id` field of the PUT
  body.
- Category fields: the category DTO spells its description field `descricao`,
  while the stored interface calls it `description`. The model uses one field,
  `description`.
- DTO class-validator decorators and the HTTP exception filter. They are
  transport-layer validation and response formatting, with wall-clock
  timestamps.
- Controllers, modules, schemas and the application wiring. They only route
  to the services.
- The challenge service. Its only operation is a plain insert. The challenge
  lifecycle that its tests describe is not part of the source.
- Pipe inputs: NaN, `-0` and BigInt zero are not modelled, because numbers
  are integers here.
- Asynchrony: every operation runs to completion before the next one starts,
  so interleavings are not modelled.
