/**
 * Feature-flag privileges of the builder session service: the flag table,
 * the team -> flag grant table kept in the data store, the two grant
 * administration calls, and the resolution of a session's flags from the
 * GitHub teams of its owner (components/builder-sessionsrv/src/privilege/mod.rs).
 */
module Privilege {
  import opened Wrappers

  /** A `FeatureFlags` value, or a raw `u32` flag word: 32 bits. */
  type Flags = bv32

  /** A GitHub team id, a `u64`. */
  type TeamId = x: int | 0 <= x < 0x1_0000_0000_0000_0000

  const EMPTY: Flags := 0
  const ADMIN: Flags := 1
  const BUILDER: Flags := 2
  /** `FeatureFlags::all()`: every defined flag. */
  const ALL: Flags := ADMIN | BUILDER

  /** The flag table: two single bits that do not overlap. */
  lemma FlagTable()
    ensures ADMIN == 1 && BUILDER == 2 && ALL == 3
    ensures ADMIN != EMPTY && ADMIN & (ADMIN - 1) == EMPTY
    ensures BUILDER != EMPTY && BUILDER & (BUILDER - 1) == EMPTY
    ensures ADMIN & BUILDER == EMPTY
  {
  }

  /**
   * `FeatureFlags::from_bits`: a raw word decodes exactly when it is a union
   * of defined flags, and then decodes to itself.
   */
  function FromBits(raw: bv32): (r: Option<Flags>)
    ensures r.Some? <==> raw == 0 || raw == 1 || raw == 2 || raw == 3
    ensures r.Some? ==> r.value == raw
  {
    if raw & !ALL == 0 then Some(raw) else None
  }

  // ---------------------------------------------------------------------
  // The grant table (`ds.features.github`)
  // ---------------------------------------------------------------------

  /** What the storage engine reports instead of a value. */
  datatype StoreError = NotFound | ReadFailed | WriteFailed

  /**
   * The contents of the grant table: the flag word stored for each team,
   * and the keys whose reads the storage engine currently fails.
   */
  datatype GrantTable = GrantTable(grants: map<TeamId, bv32>, unreadable: set<TeamId>)

  /** A read of one team's grant; a key never written reads as `NotFound`. */
  function Find(t: GrantTable, team: TeamId): Result<bv32, StoreError> {
    if team in t.unreadable then Failure(ReadFailed)
    else if team in t.grants then Success(t.grants[team])
    else Failure(NotFound)
  }

  /** The table after a successful write: an upsert of one key. */
  function Written(t: GrantTable, team: TeamId, flag: bv32): GrantTable {
    t.(grants := t.grants[team := flag])
  }

  /**
   * A write makes the key read back as the written flag, replaces rather
   * than accumulates an earlier grant, and leaves every other key alone.
   */
  lemma WriteIsUpsert(t: GrantTable, team: TeamId, first: bv32, second: bv32)
    requires team !in t.unreadable
    ensures Find(Written(t, team, first), team) == Success(first)
    ensures Written(Written(t, team, first), team, second) == Written(t, team, second)
    ensures Find(Written(Written(t, team, first), team, second), team) == Success(second)
    ensures forall other: TeamId :: other != team ==> Find(Written(t, team, first), other) == Find(t, other)
  {
  }

  /** The data store; only its feature-grant table is modelled. */
  class DataStore {
    var features: GrantTable

    constructor (features: GrantTable)
      ensures this.features == features
    {
      this.features := features;
    }

    /**
     * `features.github.write`: upserts the grant, or fails and changes
     * nothing. Whether the engine fails is an input.
     */
    method Write(team: TeamId, flag: bv32, engineFails: bool) returns (r: Result<(), StoreError>)
      modifies this
      ensures r == if engineFails then Failure(WriteFailed) else Success(())
      ensures features == if engineFails then old(features) else Written(old(features), team, flag)
    {
      if engineFails {
        return Failure(WriteFailed);
      }
      features := Written(features, team, flag);
      return Success(());
    }
  }

  /** The service's error type, as far as these calls produce it. */
  datatype Error = GitHubFailure(message: string) | StoreFailure(cause: StoreError)

  /** `associate_team`: grants `flag` to `team`; fails exactly when the store write fails. */
  method AssociateTeam(ds: DataStore, flag: bv32, team: TeamId, engineFails: bool) returns (r: Result<(), Error>)
    modifies ds
    ensures r.Success? <==> !engineFails
    ensures r.Failure? ==> r.error == StoreFailure(WriteFailed)
    ensures ds.features == if r.Success? then Written(old(ds.features), team, flag) else old(ds.features)
  {
    var written := ds.Write(team, flag, engineFails);
    if written.Failure? {
      return Failure(StoreFailure(written.error));
    }
    return Success(());
  }

  /** `list_grants`: the reverse lookup is not implemented; it lists no team and never fails. */
  function ListGrants(t: GrantTable, flag: bv32): (r: Result<seq<TeamId>, Error>)
    ensures r == Success([])
  {
    Success([])
  }

  // ---------------------------------------------------------------------
  // Resolving a session's flags
  // ---------------------------------------------------------------------

  /** A team as GitHub reports it. */
  datatype Team = Team(id: TeamId, name: string)

  /** `gh.teams(token)`: the identity provider's answer for a session token. */
  type GitHub = string -> Result<seq<Team>, string>

  /** The part of `proto::Session` that resolution reads and writes. */
  class Session {
    const token: string
    var flags: bv32

    constructor (token: string, flags: bv32)
      ensures this.token == token && this.flags == flags
    {
      this.token := token;
      this.flags := flags;
    }

    /** `set_flags` */
    method SetFlags(bits: bv32)
      modifies this
      ensures flags == bits
    {
      flags := bits;
    }
  }

  /** How a call of `set_features` ends; `Panicked` is the `unwrap` of a failed `from_bits`. */
  datatype Outcome = Done | Failed(error: Error) | Panicked(raw: bv32)

  /**
   * What one team contributes: its stored flag word when the read succeeds.
   * `.ok()` turns a missing key and a failed read alike into nothing.
   */
  function Contribution(t: GrantTable, team: TeamId): Option<bv32> {
    Find(t, team).ToOption()
  }

  /** The ids of a team list. */
  function TeamIds(teams: seq<Team>): set<TeamId> {
    set team | team in teams :: team.id
  }

  /** A team whose stored flag word, if it has one, `from_bits` accepts. */
  predicate Decodable(t: GrantTable, team: TeamId) {
    Contribution(t, team).Some? ==> FromBits(Contribution(t, team).value).Some?
  }

  /** The first stored flag word, in team order, that `from_bits` rejects. */
  function FirstBadGrant(t: GrantTable, teams: seq<Team>): Option<bv32> {
    if teams == [] then None
    else
      match FirstBadGrant(t, teams[..|teams| - 1])
      case Some(raw) => Some(raw)
      case None =>
        var last := Contribution(t, teams[|teams| - 1].id);
        if last.Some? && FromBits(last.value).None? then last else None
  }

  /** `a | b` on two flag sets. */
  function Union(a: Flags, b: Flags): Flags {
    a | b
  }

  /** The union of the flags found for `teams`: the intended aggregate. */
  function GrantedFlags(t: GrantTable, teams: seq<Team>): Flags {
    if teams == [] then EMPTY
    else Union(GrantedFlags(t, teams[..|teams| - 1]), Contribution(t, teams[|teams| - 1].id).GetOr(EMPTY))
  }

  /** Every grant found for one of the teams is part of the aggregate. */
  lemma {:induction false} GrantedCovers(t: GrantTable, teams: seq<Team>, team: TeamId)
    requires team in TeamIds(teams) && Contribution(t, team).Some?
    ensures Contribution(t, team).value | GrantedFlags(t, teams) == GrantedFlags(t, teams)
  {
    var n := |teams|;
    var init := teams[..n - 1];
    if teams[n - 1].id != team {
      var k :| 0 <= k < n && teams[k].id == team;
      assert init[k] in init;
      GrantedCovers(t, init, team);
    }
  }

  /** The aggregate has no bit beyond those of the grants found. */
  lemma {:induction false} GrantedIsLeast(t: GrantTable, teams: seq<Team>, bound: Flags)
    requires forall team :: team in TeamIds(teams) && Contribution(t, team).Some? ==>
      Contribution(t, team).value | bound == bound
    ensures GrantedFlags(t, teams) | bound == bound
  {
    if teams != [] {
      var init := teams[..|teams| - 1];
      assert TeamIds(init) <= TeamIds(teams) by {
        forall team | team in init ensures team in teams { }
      }
      GrantedIsLeast(t, init, bound);
      assert teams[|teams| - 1] in teams;
    }
  }

  /** Two flag sets each contained in the other are equal. */
  lemma MutualInclusion(x: Flags, y: Flags)
    requires x | y == y && y | x == x
    ensures x == y
  {
  }

  /** A union of two sets of defined flags holds only defined flags. */
  lemma UnionOfDefined(x: Flags, y: Flags)
    requires x & !ALL == EMPTY && y & !ALL == EMPTY
    ensures (x | y) & !ALL == EMPTY
  {
  }

  /** Fewer reported team ids give no more flags. */
  lemma GrantedIsMonotone(t: GrantTable, a: seq<Team>, b: seq<Team>)
    requires TeamIds(a) <= TeamIds(b)
    ensures GrantedFlags(t, a) | GrantedFlags(t, b) == GrantedFlags(t, b)
  {
    forall team | team in TeamIds(a) && Contribution(t, team).Some?
      ensures Contribution(t, team).value | GrantedFlags(t, b) == GrantedFlags(t, b)
    {
      GrantedCovers(t, b, team);
    }
    GrantedIsLeast(t, a, GrantedFlags(t, b));
  }

  /** The aggregate depends only on which team ids were reported. */
  lemma GrantedDependsOnlyOnTeamIds(t: GrantTable, a: seq<Team>, b: seq<Team>)
    requires TeamIds(a) == TeamIds(b)
    ensures GrantedFlags(t, a) == GrantedFlags(t, b)
  {
    GrantedIsMonotone(t, a, b);
    GrantedIsMonotone(t, b, a);
    MutualInclusion(GrantedFlags(t, a), GrantedFlags(t, b));
  }

  /** Reordering the teams does not change the aggregate. */
  lemma GrantedIsOrderIndependent(t: GrantTable, a: seq<Team>, b: seq<Team>)
    requires multiset(a) == multiset(b)
    ensures GrantedFlags(t, a) == GrantedFlags(t, b)
  {
    forall team | team in a ensures team in b {
      assert team in multiset(a);
    }
    forall team | team in b ensures team in a {
      assert team in multiset(b);
    }
    GrantedDependsOnlyOnTeamIds(t, a, b);
  }

  /** Reporting a team twice does not change the aggregate. */
  lemma GrantedIgnoresDuplicates(t: GrantTable, teams: seq<Team>, team: Team)
    requires team in teams
    ensures GrantedFlags(t, teams + [team]) == GrantedFlags(t, teams)
  {
    assert TeamIds(teams + [team]) == TeamIds(teams);
    GrantedDependsOnlyOnTeamIds(t, teams + [team], teams);
  }

  /** Teams with no readable grant (absent key or failed read) add no bit. */
  lemma {:induction false} UngrantedTeamsAddNothing(t: GrantTable, teams: seq<Team>, ungranted: seq<Team>)
    requires forall team :: team in ungranted ==> Contribution(t, team.id).None?
    ensures GrantedFlags(t, teams + ungranted) == GrantedFlags(t, teams)
  {
    if ungranted == [] {
      assert teams + ungranted == teams;
    } else {
      var init := ungranted[..|ungranted| - 1];
      assert (teams + ungranted)[..|teams + ungranted| - 1] == teams + init;
      assert ungranted[|ungranted| - 1] in ungranted;
      UngrantedTeamsAddNothing(t, teams, init);
    }
  }

  /** A user in a single granted team gets exactly that team's flag. */
  lemma SingleTeamYieldsItsGrant(t: GrantTable, team: Team)
    requires Find(t, team.id).Success?
    ensures GrantedFlags(t, [team]) == t.grants[team.id]
  {
  }

  /** Resolution panics exactly when some reported team holds an undecodable grant. */
  lemma {:induction false} PanicsIffUndecodableGrant(t: GrantTable, teams: seq<Team>)
    ensures FirstBadGrant(t, teams).None? <==> forall team :: team in TeamIds(teams) ==> Decodable(t, team)
    ensures FirstBadGrant(t, teams).Some? ==> FromBits(FirstBadGrant(t, teams).value).None?
  {
    if teams != [] {
      var init := teams[..|teams| - 1];
      var last := teams[|teams| - 1];
      PanicsIffUndecodableGrant(t, init);
      assert TeamIds(teams) == TeamIds(init) + {last.id} by {
        assert teams == init + [last];
      }
    }
  }

  /** Once a prefix of the teams holds an undecodable grant, the whole list panics on it. */
  lemma {:induction false} FirstBadGrantOfPrefix(t: GrantTable, teams: seq<Team>, k: nat)
    requires k <= |teams| && FirstBadGrant(t, teams[..k]).Some?
    ensures FirstBadGrant(t, teams) == FirstBadGrant(t, teams[..k])
  {
    if k == |teams| {
      assert teams[..k] == teams;
    } else {
      var init := teams[..|teams| - 1];
      assert init[..k] == teams[..k];
      FirstBadGrantOfPrefix(t, init, k);
    }
  }

  /** When every grant decodes, the aggregate is a union of defined flags only. */
  lemma {:induction false} GrantedWithinDefinedFlags(t: GrantTable, teams: seq<Team>)
    requires FirstBadGrant(t, teams).None?
    ensures GrantedFlags(t, teams) & !ALL == EMPTY
  {
    if teams != [] {
      var init := teams[..|teams| - 1];
      GrantedWithinDefinedFlags(t, init);
      var last := Contribution(t, teams[|teams| - 1].id);
      assert last.GetOr(EMPTY) & !ALL == EMPTY by {
        if last.Some? {
          assert FromBits(last.value).Some?;
        }
      }
      UnionOfDefined(GrantedFlags(t, init), last.GetOr(EMPTY));
    }
  }

  /** One loop step for the panic check: the next team is examined after the earlier ones. */
  lemma FirstBadGrantStep(t: GrantTable, teams: seq<Team>, i: nat)
    requires i < |teams| && FirstBadGrant(t, teams[..i]).None?
    ensures FirstBadGrant(t, teams[..i + 1]) ==
      if Decodable(t, teams[i].id) then None else Contribution(t, teams[i].id)
  {
    var prefix := teams[..i + 1];
    assert prefix[..|prefix| - 1] == teams[..i];
  }

  /** One loop step for the aggregate: the next team's grant, if any, is added. */
  lemma GrantedStep(t: GrantTable, teams: seq<Team>, i: nat)
    requires i < |teams|
    ensures GrantedFlags(t, teams[..i + 1]) == Union(GrantedFlags(t, teams[..i]), Contribution(t, teams[i].id).GetOr(EMPTY))
  {
    var prefix := teams[..i + 1];
    assert prefix[..|prefix| - 1] == teams[..i];
  }

  /** The empty set is the unit of union. */
  lemma UnionWithEmpty(x: Flags)
    ensures Union(x, EMPTY) == x
  {
  }

  /**
   * `set_features` as written: the union `flags | flag` is computed and
   * dropped, and `flags` is never reassigned, so a resolution that
   * completes always stores the empty set.
   */
  method SetFeaturesAsWritten(ds: DataStore, gh: GitHub, session: Session) returns (r: Outcome)
    modifies session
    ensures gh(session.token).Failure? ==> r == Failed(GitHubFailure(gh(session.token).error))
    ensures gh(session.token).Success? ==>
      r == match FirstBadGrant(ds.features, gh(session.token).value)
           case Some(raw) => Panicked(raw)
           case None => Done
    ensures r.Done? ==> session.flags == EMPTY
    ensures !r.Done? ==> session.flags == old(session.flags)
  {
    var table := ds.features;
    var reply := gh(session.token);
    if reply.Failure? {
      return Failed(GitHubFailure(reply.error));
    }
    var teams := reply.value;
    var flags := EMPTY;
    var i := 0;
    while i < |teams|
      invariant 0 <= i <= |teams|
      invariant FirstBadGrant(table, teams[..i]).None?
      invariant session.flags == old(session.flags)
    {
      FirstBadGrantStep(table, teams, i);
      var found := Find(table, teams[i].id);
      if found.Success? {
        var flag := FromBits(found.value);
        if flag.None? {
          FirstBadGrantOfPrefix(table, teams, i + 1);
          return Panicked(found.value);
        }
        var _ := Union(flags, flag.value);
      }
      i := i + 1;
    }
    assert teams[..i] == teams;
    session.SetFlags(flags);
    return Done;
  }

  /**
   * `set_features` with the accumulator reassigned (`flags = flags | flag`),
   * as the "Granting feature flag" log line intends: the session receives
   * the union of the grants found for its teams, once, after the loop.
   */
  method SetFeatures(ds: DataStore, gh: GitHub, session: Session) returns (r: Outcome)
    modifies session
    ensures gh(session.token).Failure? ==> r == Failed(GitHubFailure(gh(session.token).error))
    ensures gh(session.token).Success? ==>
      r == match FirstBadGrant(ds.features, gh(session.token).value)
           case Some(raw) => Panicked(raw)
           case None => Done
    ensures r.Done? ==> session.flags == GrantedFlags(ds.features, gh(session.token).value)
    ensures !r.Done? ==> session.flags == old(session.flags)
  {
    var table := ds.features;
    var reply := gh(session.token);
    if reply.Failure? {
      return Failed(GitHubFailure(reply.error));
    }
    var teams := reply.value;
    var flags := EMPTY;
    var i := 0;
    while i < |teams|
      invariant 0 <= i <= |teams|
      invariant FirstBadGrant(table, teams[..i]).None?
      invariant flags == GrantedFlags(table, teams[..i])
      invariant session.flags == old(session.flags)
    {
      var found := Find(table, teams[i].id);
      FirstBadGrantStep(table, teams, i);
      if found.Success? {
        var flag := FromBits(found.value);
        if flag.None? {
          FirstBadGrantOfPrefix(table, teams, i + 1);
          return Panicked(found.value);
        }
        GrantedStep(table, teams, i);
        flags := Union(flags, flag.value);
      } else {
        GrantedStep(table, teams, i);
        UnionWithEmpty(flags);
      }
      i := i + 1;
    }
    assert teams[..i] == teams;
    session.SetFlags(flags);
    return Done;
  }

  /**
   * The discarded union loses entitlements: a user whose one team holds
   * ADMIN resolves to ADMIN when the union is kept, yet the code as written
   * completes and stores the empty set.
   */
  lemma DiscardedUnionDropsGrant()
    ensures var t := GrantTable(map[7 := ADMIN], {});
            var teams := [Team(7, "core")];
            FirstBadGrant(t, teams).None? && GrantedFlags(t, teams) == ADMIN && ADMIN != EMPTY
  {
  }

  /**
   * For every input where resolution completes and some reported team holds
   * a readable nonzero grant, the intended aggregate is nonzero, so it differs
   * from the empty set the code as written stores.
   */
  lemma KeptUnionDiffersFromDiscarded(t: GrantTable, teams: seq<Team>, team: TeamId)
    requires FirstBadGrant(t, teams).None?
    requires team in TeamIds(teams) && Contribution(t, team).Some? && Contribution(t, team).value != EMPTY
    ensures GrantedFlags(t, teams) != EMPTY
  {
    GrantedCovers(t, teams, team);
  }
}
