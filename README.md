# Builder privileges and admin handlers, modelled in Dafny

This project models two pieces of the Habitat builder services.

The first is the **feature-flag privilege logic** of the session service. It has three parts:

- the flag table: `FeatureFlags` over `u32`, with `ADMIN = 1` and `BUILDER = 2`;
- the team → flag grant table, with `associate_team` and `list_grants`;
- `set_features`, which stores flags on a session from the GitHub teams of its owner.

The second is the **request-validation logic of the admin HTTP handlers**. Each handler runs a short chain of checks. Each failed check returns its own fixed status. A message goes to the broker only when every check has passed.

Files:

- `wrappers.dfy` — `Option` and `Result`.
- `privilege.dfy` (module `Privilege`) — the flag constants and `from_bits`. The grant table (`GrantTable`) is read with `Find`. The data store (`DataStore`) and the session (`Session`) are classes updated in place. The file has `associate_team`, `list_grants` and two versions of `set_features`. `SetFeaturesAsWritten` follows the code as written. `SetFeatures` keeps the union, as intended. The specification functions are `GrantedFlags` (the union of the grants found) and `FirstBadGrant` (the first stored word that `from_bits` rejects). Lemmas prove their properties.
- `handlers.dfy` (module `Handlers`) — Rust's unsigned-integer parsing, and each handler as a pure function. A handler's result is a `Reply`: the response, plus the broker messages sent while producing it. The broker and `AccountSearch::from_search_pair` are function inputs.

Modelling choices:

- GitHub's `teams(token)` is an input `string -> Result<seq<Team>, string>`.
- Whether the storage engine fails a write is a boolean input.
- The grant table records which keys currently fail to read (`unreadable`).
- A read of a key never written gives `NotFound`.
- `.ok()` turns both read failures into "no grant".
- A panic from `from_bits(..).unwrap()` is the outcome `Panicked(raw)`. So is the one from `from_search_pair(..).unwrap()` in `account_show`, which gives the response `Panic`. In both cases nothing is written and no message is sent.
- Flag words are `bv32`. Team ids are integers below 2^64.
- `parse::<u32>` and `parse::<u64>` follow Rust's standard library: at most one leading `+`, then at least one ASCII digit, with a value that fits the type. Anything else fails: empty text, `-`, other characters, overflow.

Two behaviours of the code worth stating plainly:

- **Failed grant reads.** A failed grant read is skipped like a missing grant and is not reported: `privilege/mod.rs:44` calls `.ok()` on the read.
- **`list_grants`.** It has no reverse lookup and always returns an empty list (`privilege/mod.rs:34-38`).

## Model

| member | source | states |
|---|---|---|
| `Privilege.FlagTable` | components/builder-sessionsrv/src/privilege/mod.rs:22-27 | ADMIN is 1 and BUILDER is 2. Each is a single nonzero bit, their AND is 0, and together they make up `all()` = 3 |
| `Privilege.FromBits` | components/builder-sessionsrv/src/privilege/mod.rs:45 | `from_bits` accepts a word exactly when it is 0, 1, 2 or 3, a union of defined flags, and then returns that word unchanged |
| `Privilege.WriteIsUpsert` | components/builder-sessionsrv/src/privilege/mod.rs:29-32 | after a write, `find(team)` returns the written flag. A second write replaces the first instead of combining with it. Other teams read as before |
| `Privilege.DataStore.Write` | components/builder-sessionsrv/src/privilege/mod.rs:30 | the store write upserts one key, or fails with `WriteFailed` and leaves the table unchanged |
| `Privilege.AssociateTeam` | components/builder-sessionsrv/src/privilege/mod.rs:29-32 | `associate_team` succeeds exactly when the store write succeeds. On success the table is the old table with `team → flag` upserted. On failure the store error is passed on and the table is unchanged |
| `Privilege.ListGrants` | components/builder-sessionsrv/src/privilege/mod.rs:34-38 | `list_grants` returns the empty list for every flag and every table, and never fails |
| `Privilege.Session.SetFlags` | components/builder-sessionsrv/src/privilege/mod.rs:50 | `set_flags` replaces the session's flag word |
| `Privilege.SetFeaturesAsWritten` | components/builder-sessionsrv/src/privilege/mod.rs:40-52 | `set_features` as written. A GitHub error is returned and leaves the session untouched. An undecodable stored grant panics on the first such word, in team order, and leaves the session untouched. Otherwise the session's flags become 0, whatever the teams and grants, because the union is discarded |
| `Privilege.SetFeatures` | components/builder-sessionsrv/src/privilege/mod.rs:40-52 | the version with flags reassigned to the union of flags and flag. It has the same error and panic outcomes. When it completes, the session's flags are the union of the grants found for its teams. The loop invariant keeps that union for the teams processed so far |
| `Privilege.GrantedCovers` | components/builder-sessionsrv/src/privilege/mod.rs:43-48 | every grant found for a reported team is contained in the aggregate |
| `Privilege.GrantedIsLeast` | components/builder-sessionsrv/src/privilege/mod.rs:43-48 | the aggregate sets no bit outside the grants found: it is contained in any word that contains all of them |
| `Privilege.GrantedIsMonotone` | components/builder-sessionsrv/src/privilege/mod.rs:43-48 | reporting a subset of the team ids yields a subset of the flags |
| `Privilege.GrantedDependsOnlyOnTeamIds` | components/builder-sessionsrv/src/privilege/mod.rs:43-48 | two team lists with the same set of ids resolve to the same flags |
| `Privilege.GrantedIsOrderIndependent` | components/builder-sessionsrv/src/privilege/mod.rs:43-48 | any permutation of the team list resolves to the same flags |
| `Privilege.GrantedIgnoresDuplicates` | components/builder-sessionsrv/src/privilege/mod.rs:43-48 | reporting a team a second time does not change the flags |
| `Privilege.UngrantedTeamsAddNothing` | components/builder-sessionsrv/src/privilege/mod.rs:44 | teams whose grant is missing, or whose read fails, add no bit and do not stop the loop |
| `Privilege.SingleTeamYieldsItsGrant` | components/builder-sessionsrv/src/privilege/mod.rs:43-47 | a user whose only team has a readable grant gets exactly that team's flag word |
| `Privilege.PanicsIffUndecodableGrant` | components/builder-sessionsrv/src/privilege/mod.rs:45 | resolution panics exactly when some reported team has a readable grant that `from_bits` rejects. The word it panics on is rejected by `from_bits` |
| `Privilege.FirstBadGrantOfPrefix` | components/builder-sessionsrv/src/privilege/mod.rs:43-45 | once the teams processed so far include an undecodable grant, the whole resolution panics on that same word |
| `Privilege.GrantedWithinDefinedFlags` | components/builder-sessionsrv/src/privilege/mod.rs:22-27 | when every grant decodes, the aggregate contains only ADMIN and BUILDER bits |
| `Privilege.DiscardedUnionDropsGrant` | components/builder-sessionsrv/src/privilege/mod.rs:47 | example: one team, id 7, holds ADMIN. Nothing panics, and the intended aggregate is ADMIN, which is nonzero. Together with `SetFeaturesAsWritten`, which stores 0 on every completed run, this is an input where the two differ |
| `Privilege.KeptUnionDiffersFromDiscarded` | components/builder-sessionsrv/src/privilege/mod.rs:47 | whenever nothing panics and some reported team holds a readable nonzero grant, the intended aggregate is nonzero. So for every such input the 0 stored by the code as written is wrong |
| `Handlers.ParseUnsigned` | components/builder-admin/src/http/handlers.rs:41 | an integer parses exactly when it is an optional `+` followed by one or more digits with a value below the type's limit. Empty text, `+` alone and a leading `-` fail |
| `Handlers.ParseDecimal` | components/builder-admin/src/http/handlers.rs:74 | parsing the decimal rendering of n gives n back when n fits the type, and fails when it does not |
| `Handlers.AccountFeaturesShow` | components/builder-admin/src/http/handlers.rs:34-36 | answers 200 and sends nothing, whatever the request |
| `Handlers.AccountShow` | components/builder-admin/src/http/handlers.rs:38-50 | a non-`u64` id gets 400 with no broker message, and the only rejection is this one. A valid id with an untranslatable pair panics. Otherwise exactly one account search is routed. The reply is 200 with the account when the broker returns one, and the rendered net error when the broker fails |
| `Handlers.AccountShowRoutesDecimalIds` | components/builder-admin/src/http/handlers.rs:41-46 | the decimal rendering of any `u64` passes the id check, and its query is routed |
| `Handlers.AccountShowRejectsNonNumericId` | components/builder-admin/src/http/handlers.rs:41-43 | the id "not-a-number" gets 400 and sends nothing |
| `Handlers.FeatureShow` | components/builder-admin/src/http/handlers.rs:52-68 | answers 200 and sends nothing, whatever the request |
| `Handlers.FeatureUpdate` | components/builder-admin/src/http/handlers.rs:70-88 | a non-`u32` id gets 400 whatever the body. With a valid id, a missing or malformed body gets 422. A message is sent exactly when both pass, and it grants the parsed flag to the listed teams. The reply is 204 exactly when that grant succeeds, and the rendered net error when it fails. The request is rejected exactly when nothing is sent |
| `Handlers.FeaturesList` | components/builder-admin/src/http/handlers.rs:90-96 | answers 200 with exactly the names ADMIN and BUILDER, mapped to the flag table's values 1 and 2. Each value is a word `from_bits` accepts. Nothing is sent |
| `Handlers.Status` | components/builder-admin/src/http/handlers.rs:101-103 | answers 200 and sends nothing, whatever the request |
| `Handlers.RouteAccountSearch` | components/builder-admin/src/http/handlers.rs:128-132 | routing an account query sends exactly that query. A broker reply with an account gives 200 with that account; a broker error gives the rendered net error. It never produces a rejection status |
| `Handlers.SearchAccount` | components/builder-admin/src/http/handlers.rs:125-136 | a pair the translator refuses gets 422 with the translator's message and sends nothing. A pair it accepts is routed: exactly that query is sent, and the reply is 200 with the account or the rendered net error. The request is rejected exactly when nothing is sent |
| `Handlers.Search` | components/builder-admin/src/http/handlers.rs:105-123 | an absent or unparseable body gets 400. Then `attr`, `value` and `entity` are checked in that order, each failure getting 422. Only string `attr` and `value` with entity exactly the string "account" reach `search_account`. The request is rejected exactly when nothing is sent |
| `Handlers.SearchRoutesOnlyTranslatedQueries` | components/builder-admin/src/http/handlers.rs:105-136 | `search` sends a message exactly when the body passes every check and the translator accepts its pair, and it then sends exactly that query |
| `Handlers.SearchRejectsOtherEntities` | components/builder-admin/src/http/handlers.rs:116-119 | any `entity` other than the JSON string "account", such as "widget", a number or a non-string, gets 422 and sends nothing |

## Left out

- Iron, the router and body parsing. Handlers receive the `id` path parameter as a string and the parsed body as `Parsed` (value, no body, or malformed). The `params.find("id").unwrap()` calls assume the router supplied the parameter.
- JSON encoding of responses, including the second encoding of the already-encoded map in `features_list`. `FeaturesBody` carries the map itself.
- `Broker::connect().unwrap()`: a failed connection, which panics, is not modelled. `conn.route` is the `Broker` input.
- `render_net_error`: its mapping from error code to status is not part of this model. The response keeps the `NetError`.
- `AccountSearch::from_search_pair`: its rules are not part of this model. It is an input that returns a query or an error message, and `AccountSearch` is an abstract record.
- Rust's integer parsing is not in the repository. `ParseUnsigned` restates the standard library's rule.
- The GitHub client and the `DataStore`/`dbcache` engine are external I/O. They are inputs: a reply function, a write-failure flag, and a set of keys whose reads fail.
- The commented-out reverse-index code in `feature_show` and `list_grants` is dead code.
- `debug!` logging and the `include!` of generated serde types.
- Concurrency between handlers and between writers to the store.
- The handler that applies `GrantFlagToTeams` on the session service, one grant per team, is not part of this model. `feature_update` only sends the message.

## Findings

| source | as written | input that shows it | evidently intended | confidence | as-written member | corrected member |
|---|---|---|---|---|---|---|
| components/builder-sessionsrv/src/privilege/mod.rs:47 | The statement `flags OR flag;` (mod.rs:47) computes the union and drops it. `flags` is an immutable binding set to `FeatureFlags::empty()`, so `set_flags` always receives 0 | a user in one team, id 7, whose stored grant is ADMIN (1): resolution completes and the session's flags become 0 | flags reassigned to the union of flags and flag on a mutable accumulator, so the session receives 1 (the union of the grants found) | high; not executed | `Privilege.SetFeaturesAsWritten`, `Privilege.DiscardedUnionDropsGrant`, `Privilege.KeptUnionDiffersFromDiscarded` | `Privilege.SetFeatures` |
