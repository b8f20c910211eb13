/** The match listing of src/App.tsx: each match of the response is
    resolved into display fields by looking its round, group, tournament,
    facility and teams up in the document's `included` list. Every lookup
    is a first-match search on both `type` and `id`; where the source casts
    the found element (`as Round`), the model relies on the kind check. */
module App {

  import opened Js
  import opened Api
  import opened DateDisplay

  /** `({ type, id }) => type === tag && id === key`. A null key finds a
      resource whose id is null, as `===` does. */
  function Keyed(tag: TypeTag, key: Id): Resource -> bool {
    (r: Resource) => r.Tag() == tag && r.id == key
  }

  /** i is the first element of included with this type and id. */
  ghost predicate FirstOf(included: seq<Resource>, tag: TypeTag, key: Id, i: int) {
    IsFirst(included, Keyed(tag, key), i)
  }

  /** `included.find(({ type, id }) => type === tag && id === key)`. */
  function Lookup(included: seq<Resource>, tag: TypeTag, key: Id): (r: Option<Resource>)
    ensures r.Some? ==> r.value in included && r.value.Tag() == tag && r.value.id == key
    ensures r.None? <==> forall i :: 0 <= i < |included| ==> !(included[i].Tag() == tag && included[i].id == key)
  {
    Find(included, Keyed(tag, key))
  }

  /** The lookup returns the first element with the requested type and id. */
  lemma LookupFirst(included: seq<Resource>, tag: TypeTag, key: Id, i: int)
    requires FirstOf(included, tag, key, i)
    ensures Lookup(included, tag, key) == Some(included[i])
  {
    FindReturnsFirst(included, Keyed(tag, key), i);
  }

  /** Searching a concatenation searches the first part, then the second. */
  lemma {:induction false} LookupAppend(a: seq<Resource>, b: seq<Resource>, tag: TypeTag, key: Id)
    ensures Lookup(a + b, tag, key) ==
      (if Lookup(a, tag, key).Some? then Lookup(a, tag, key) else Lookup(b, tag, key))
    decreases |a|
  {
    if |a| > 0 {
      assert (a + b)[0] == a[0] && (a + b)[1..] == a[1..] + b;
      LookupAppend(a[1..], b, tag, key);
    } else {
      assert a + b == b;
    }
  }

  /** Resources of another kind never affect a lookup, wherever they sit. */
  lemma LookupSkipsOtherKinds(a: seq<Resource>, x: Resource, b: seq<Resource>, tag: TypeTag, key: Id)
    requires x.Tag() != tag
    ensures Lookup(a + [x] + b, tag, key) == Lookup(a + b, tag, key)
  {
    LookupAppend(a + [x], b, tag, key);
    LookupAppend(a, [x], tag, key);
    LookupAppend(a, b, tag, key);
  }

  /** `round.data?.id`: undefined when the relationship's data is null. */
  function RefId(rel: ToOne): Id
  {
    if rel.None? then None else rel.value
  }

  /** tournamentName: round → group → tournament, `''` at the first
      missing hop, otherwise the tournament's name (which may be null). */
  function TournamentName(included: seq<Resource>, roundId: Id): (name: Option<string>)
    ensures !Truthy(roundId) ==> name == Some("")
    ensures name != Some("") ==>
      exists t :: t in included && t.Tournament? && t.tournamentAttributes.name == name
  {
    if !Truthy(roundId) then Some("")
    else match Lookup(included, RoundTag, roundId)
      case None => Some("")
      case Some(round) =>
        match Lookup(included, GroupTag, round.roundRelationships.group)
        case None => Some("")
        case Some(group) =>
          match Lookup(included, TournamentTag, group.groupRelationships.tournament)
          case None => Some("")
          case Some(tournament) => tournament.tournamentAttributes.name
  }

  /** Along a complete chain of first matches the result is the name of the
      tournament reached through the round's group. */
  lemma TournamentNameResolved(included: seq<Resource>, roundId: Id, i: int, j: int, k: int)
    requires Truthy(roundId)
    requires FirstOf(included, RoundTag, roundId, i)
    requires FirstOf(included, GroupTag, included[i].roundRelationships.group, j)
    requires FirstOf(included, TournamentTag, included[j].groupRelationships.tournament, k)
    ensures TournamentName(included, roundId) == included[k].tournamentAttributes.name
  {
    LookupFirst(included, RoundTag, roundId, i);
    LookupFirst(included, GroupTag, included[i].roundRelationships.group, j);
    LookupFirst(included, TournamentTag, included[j].groupRelationships.tournament, k);
  }

  /** No round with that id: `''`. */
  lemma TournamentNameNoRound(included: seq<Resource>, roundId: Id)
    requires forall i :: 0 <= i < |included| ==> !Keyed(RoundTag, roundId)(included[i])
    ensures TournamentName(included, roundId) == Some("")
  {
  }

  /** The round is there but its group is not: `''`. */
  lemma TournamentNameNoGroup(included: seq<Resource>, roundId: Id, i: int)
    requires Truthy(roundId)
    requires FirstOf(included, RoundTag, roundId, i)
    requires forall j :: 0 <= j < |included| ==>
      !Keyed(GroupTag, included[i].roundRelationships.group)(included[j])
    ensures TournamentName(included, roundId) == Some("")
  {
    LookupFirst(included, RoundTag, roundId, i);
  }

  /** Round and group are there but the group's tournament is not: `''`. */
  lemma TournamentNameNoTournament(included: seq<Resource>, roundId: Id, i: int, j: int)
    requires Truthy(roundId)
    requires FirstOf(included, RoundTag, roundId, i)
    requires FirstOf(included, GroupTag, included[i].roundRelationships.group, j)
    requires forall k :: 0 <= k < |included| ==>
      !Keyed(TournamentTag, included[j].groupRelationships.tournament)(included[k])
    ensures TournamentName(included, roundId) == Some("")
  {
    LookupFirst(included, RoundTag, roundId, i);
    LookupFirst(included, GroupTag, included[i].roundRelationships.group, j);
  }

  /** roundName: `''` for a falsy id or a missing round, otherwise the
      round's name. */
  function RoundName(included: seq<Resource>, roundId: Id): (name: Option<string>)
    ensures !Truthy(roundId) ==> name == Some("")
    ensures (forall i :: 0 <= i < |included| ==> !Keyed(RoundTag, roundId)(included[i])) ==> name == Some("")
    ensures name != Some("") ==>
      exists r :: r in included && r.Round? && r.id == roundId && r.roundAttributes.name == name
  {
    if !Truthy(roundId) then Some("")
    else match Lookup(included, RoundTag, roundId)
      case None => Some("")
      case Some(round) => round.roundAttributes.name
  }

  lemma RoundNameResolved(included: seq<Resource>, roundId: Id, i: int)
    requires Truthy(roundId)
    requires FirstOf(included, RoundTag, roundId, i)
    ensures RoundName(included, roundId) == included[i].roundAttributes.name
  {
    LookupFirst(included, RoundTag, roundId, i);
  }

  /** facilityName: `''` for a falsy id or a missing facility, otherwise the
      facility's name. */
  function FacilityName(included: seq<Resource>, facilityId: Id): (name: Option<string>)
    ensures !Truthy(facilityId) ==> name == Some("")
    ensures (forall i :: 0 <= i < |included| ==> !Keyed(FacilityTag, facilityId)(included[i])) ==> name == Some("")
    ensures name != Some("") ==>
      exists f :: f in included && f.Facility? && f.id == facilityId && f.facilityAttributes.name == name
  {
    if !Truthy(facilityId) then Some("")
    else match Lookup(included, FacilityTag, facilityId)
      case None => Some("")
      case Some(facility) => facility.facilityAttributes.name
  }

  lemma FacilityNameResolved(included: seq<Resource>, facilityId: Id, i: int)
    requires Truthy(facilityId)
    requires FirstOf(included, FacilityTag, facilityId, i)
    ensures FacilityName(included, facilityId) == included[i].facilityAttributes.name
  {
    LookupFirst(included, FacilityTag, facilityId, i);
  }

  /** team: the first team with that id, or undefined. */
  function FindTeam(included: seq<Resource>, teamId: string): (team: Option<Resource>)
    ensures team.Some? ==> team.value in included && team.value.Team? && team.value.id == Some(teamId)
    ensures team.None? <==> forall i :: 0 <= i < |included| ==> !(included[i].Team? && included[i].id == Some(teamId))
  {
    Lookup(included, TeamTag, Some(teamId))
  }

  /** `meta.home_team ? team(meta.home_team) : undefined`, and likewise for
      the away side. */
  function SideTeam(included: seq<Resource>, side: Id): (team: Option<Resource>)
    ensures !Truthy(side) ==> team.None?
    ensures team.Some? ==> team.value in included && team.value.Team? && team.value.id == side
  {
    if Truthy(side) then FindTeam(included, side.value) else None
  }

  lemma SideTeamResolved(included: seq<Resource>, side: Id, i: int)
    requires Truthy(side)
    requires FirstOf(included, TeamTag, side, i)
    ensures SideTeam(included, side) == Some(included[i])
  {
    LookupFirst(included, TeamTag, side, i);
  }

  /** What the listing shows for one match. */
  datatype MatchView = MatchView(
    tournament: Option<string>, roundText: Option<string>, facilityText: Option<string>,
    homeTeam: Option<Resource>, awayTeam: Option<Resource>, day: string, hour: string)

  /** A match whose date parseDate can display. */
  predicate Showable(m: Resource) {
    m.Match? && Displayable(m.matchAttributes.date)
  }

  /** The body of `matches.data.map(…)` for one match: the round text and
      the tournament from the round's id, the facility text from the
      facility's id, the two sides' teams, and the date split. */
  function ResolveMatch(included: seq<Resource>, m: Resource): (v: MatchView)
    requires Showable(m)
    ensures v.tournament == TournamentName(included, RefId(m.matchRelationships.round))
    ensures v.roundText == RoundName(included, RefId(m.matchRelationships.round))
    ensures v.facilityText == FacilityName(included, RefId(m.matchRelationships.facility))
    ensures v.homeTeam == SideTeam(included, m.matchMeta.homeTeam)
    ensures v.awayTeam == SideTeam(included, m.matchMeta.awayTeam)
    ensures DayHour(v.day, v.hour) == ParseDate(m.matchAttributes.date)
    ensures m.matchRelationships.round.None? ==> v.tournament == Some("") && v.roundText == Some("")
    ensures m.matchRelationships.facility.None? ==> v.facilityText == Some("")
  {
    var roundId := RefId(m.matchRelationships.round);
    var dh := ParseDate(m.matchAttributes.date);
    MatchView(
      TournamentName(included, roundId),
      RoundName(included, roundId),
      FacilityName(included, RefId(m.matchRelationships.facility)),
      SideTeam(included, m.matchMeta.homeTeam),
      SideTeam(included, m.matchMeta.awayTeam),
      dh.day, dh.hour)
  }

  /** With its round, group, tournament and facility all present, a match
      shows the names of the first matching round, tournament and facility. */
  lemma ResolveMatchNames(included: seq<Resource>, m: Resource, i: int, j: int, k: int, f: int)
    requires Showable(m)
    requires Truthy(RefId(m.matchRelationships.round))
    requires FirstOf(included, RoundTag, RefId(m.matchRelationships.round), i)
    requires FirstOf(included, GroupTag, included[i].roundRelationships.group, j)
    requires FirstOf(included, TournamentTag, included[j].groupRelationships.tournament, k)
    requires Truthy(RefId(m.matchRelationships.facility))
    requires FirstOf(included, FacilityTag, RefId(m.matchRelationships.facility), f)
    ensures ResolveMatch(included, m).tournament == included[k].tournamentAttributes.name
    ensures ResolveMatch(included, m).roundText == included[i].roundAttributes.name
    ensures ResolveMatch(included, m).facilityText == included[f].facilityAttributes.name
  {
    TournamentNameResolved(included, RefId(m.matchRelationships.round), i, j, k);
    RoundNameResolved(included, RefId(m.matchRelationships.round), i);
    FacilityNameResolved(included, RefId(m.matchRelationships.facility), f);
  }

  /** With both side ids set, a match shows the first team with each id. */
  lemma ResolveMatchTeams(included: seq<Resource>, m: Resource, h: int, a: int)
    requires Showable(m)
    requires Truthy(m.matchMeta.homeTeam) && FirstOf(included, TeamTag, m.matchMeta.homeTeam, h)
    requires Truthy(m.matchMeta.awayTeam) && FirstOf(included, TeamTag, m.matchMeta.awayTeam, a)
    ensures ResolveMatch(included, m).homeTeam == Some(included[h])
    ensures ResolveMatch(included, m).awayTeam == Some(included[a])
  {
    SideTeamResolved(included, m.matchMeta.homeTeam, h);
    SideTeamResolved(included, m.matchMeta.awayTeam, a);
  }

  /** Every match of the list can be displayed. */
  predicate AllShowable(data: seq<Resource>) {
    forall i :: 0 <= i < |data| ==> Showable(data[i])
  }

  /** The map over `data`: one view per match, in the same order. */
  function ResolveAll(included: seq<Resource>, data: seq<Resource>): (views: seq<MatchView>)
    requires AllShowable(data)
    ensures |views| == |data|
    ensures forall i :: 0 <= i < |data| ==> views[i] == ResolveMatch(included, data[i])
  {
    if |data| == 0 then []
    else [ResolveMatch(included, data[0])] + ResolveAll(included, data[1..])
  }

  /** The listing for a whole response. */
  function ResolveMatches(response: MatchResponse): (views: seq<MatchView>)
    requires AllShowable(response.data)
    ensures |views| == |response.data|
    ensures forall i :: 0 <= i < |views| ==> views[i] == ResolveMatch(response.included, response.data[i])
  {
    ResolveAll(response.included, response.data)
  }

  /** Listing a concatenation of match lists lists each part in turn. */
  lemma {:induction false} ResolveAllAppend(included: seq<Resource>, a: seq<Resource>, b: seq<Resource>)
    requires AllShowable(a) && AllShowable(b)
    ensures AllShowable(a + b)
    ensures ResolveAll(included, a + b) == ResolveAll(included, a) + ResolveAll(included, b)
    decreases |a|
  {
    assert AllShowable(a + b) by {
      forall i | 0 <= i < |a + b| ensures Showable((a + b)[i]) {
        if i < |a| { assert (a + b)[i] == a[i]; } else { assert (a + b)[i] == b[i - |a|]; }
      }
    }
    if |a| == 0 {
      assert a + b == b;
    } else {
      assert (a + b)[1..] == a[1..] + b;
      ResolveAllAppend(included, a[1..], b);
    }
  }
}
