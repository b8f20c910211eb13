/** The data-access module src/Api.ts: the JSON:API resources a match
    listing returns, the compound document that carries them, and the one
    request the application sends. The network call and the clock are not
    modelled: the request is a function of the `from` date, and decoded
    documents are inputs to the rest of the model. */
module Api {

  import opened Js
  import opened Strings
  import opened Decimal

  /** A resource identifier: `string | null`. */
  type Id = Option<string>

  /** A to-one relationship `{ data: { type, id } | null }`; the outer
      Option is `data`, the inner one its `id`. The `type` member is fixed
      by the relationship's declaration and is not stored. */
  type ToOne = Option<Id>

  /** The `type` member of a resource object. */
  datatype TypeTag = MatchTag | TournamentTag | GroupTag | FacilityTag | RoundTag | TeamTag

  datatype MatchAttributes = MatchAttributes(
    date: Option<string>, datetime: Option<string>, displayTimezone: Option<string>,
    finished: bool, canceled: bool, postponed: bool, rest: bool,
    createdAt: Option<string>, updatedAt: Option<string>)

  /** The match's home and away team ids, carried outside its relationships. */
  datatype MatchMeta = MatchMeta(homeTeam: Id, awayTeam: Id)

  datatype MatchRelationships = MatchRelationships(
    faceoff: ToOne, facility: ToOne, round: ToOne, teams: Option<seq<Id>>)

  datatype TournamentAttributes = TournamentAttributes(
    gender: Option<string>, modality: Option<string>, name: Option<string>,
    order: Option<int>, status: Option<string>,
    createdAt: Option<string>, updatedAt: Option<string>)

  datatype TournamentRelationships = TournamentRelationships(
    category: ToOne, discipline: ToOne, manager: ToOne, scoringCriterion: ToOne, season: ToOne)

  datatype GroupAttributes = GroupAttributes(
    name: Option<string>, order: Option<int>, groupType: Option<string>, group: Option<string>,
    promote: Option<int>, relegate: Option<int>,
    createdAt: Option<string>, updatedAt: Option<string>)

  /** A group always names its tournament (`data` is never null). */
  datatype GroupRelationships = GroupRelationships(tournament: Id)

  datatype FacilityAttributes = FacilityAttributes(
    active: bool, latitude: Option<real>, longitude: Option<real>, name: Option<string>,
    address: Option<string>, postalCode: Option<string>, city: Option<string>,
    province: Option<string>, phone: Option<string>,
    createdAt: Option<string>, updatedAt: Option<string>)

  datatype FacilityRelationships = FacilityRelationships(manager: Id)

  /** `limit_date` is declared as always null and is not stored. */
  datatype RoundAttributes = RoundAttributes(
    endDate: Option<string>, name: Option<string>, order: Option<int>, startDate: Option<string>,
    createdAt: Option<string>, updatedAt: Option<string>)

  /** A round always names its group (`data` is never null). */
  datatype RoundRelationships = RoundRelationships(group: Id)

  /** `adjusted_phaseresult_value` and `canceled` are declared as always
      null and are not stored. */
  datatype TeamAttributes = TeamAttributes(
    equipment1: Option<string>, equipment2: Option<string>, headquarter: Option<string>,
    name: Option<string>, status: Option<string>, validated: Option<string>,
    createdAt: Option<string>, updatedAt: Option<string>)

  datatype TeamMeta = TeamMeta(avatarLarge: Option<string>)

  /** The `category` relationship of a team is declared as always null and
      is not stored. */
  datatype TeamRelationships = TeamRelationships(club: Id, registrable: Id)

  /** A resource object, one constructor per `type`. */
  datatype Resource =
    | Match(id: Id, matchAttributes: MatchAttributes, matchMeta: MatchMeta,
            matchRelationships: MatchRelationships)
    | Tournament(id: Id, tournamentAttributes: TournamentAttributes,
                 tournamentRelationships: TournamentRelationships)
    | Group(id: Id, groupAttributes: GroupAttributes, groupRelationships: GroupRelationships)
    | Facility(id: Id, facilityAttributes: FacilityAttributes,
               facilityRelationships: FacilityRelationships)
    | Round(id: Id, roundAttributes: RoundAttributes, roundRelationships: RoundRelationships)
    | Team(id: Id, teamAttributes: TeamAttributes, teamMeta: TeamMeta,
           teamRelationships: TeamRelationships)
  {
    /** The resource's `type` member. */
    function Tag(): (tag: TypeTag)
      ensures tag == MatchTag <==> Match?
      ensures tag == TournamentTag <==> Tournament?
      ensures tag == GroupTag <==> Group?
      ensures tag == FacilityTag <==> Facility?
      ensures tag == RoundTag <==> Round?
      ensures tag == TeamTag <==> Team?
    {
      match this
      case Match(_, _, _, _) => MatchTag
      case Tournament(_, _, _) => TournamentTag
      case Group(_, _, _) => GroupTag
      case Facility(_, _, _) => FacilityTag
      case Round(_, _, _) => RoundTag
      case Team(_, _, _, _) => TeamTag
    }
  }

  /** A compound document: primary `data` and the flat `included` list. */
  datatype Document = Document(data: seq<Resource>, included: seq<Resource>)

  /** The shape MatchResponse declares: every primary resource is a match;
      every included one is a tournament, group, facility, round or team. */
  predicate IsMatchResponse(d: Document) {
    && (forall i :: 0 <= i < |d.data| ==> d.data[i].Match?)
    && (forall i :: 0 <= i < |d.included| ==> !d.included[i].Match?)
  }

  /** MatchResponse; the empty document is the application's initial state. */
  type MatchResponse = d: Document | IsMatchResponse(d) witness Document([], [])

  // ---------------------------------------------------------------------
  // The request of getNextMatches

  const BaseUrl := "https://api.leverade.com"
  const Season := "7618"
  const Manager := "314965"
  const PageSize := "50"
  const PageNumber := "1"

  /** The collection the request addresses. */
  const MatchesPath := BaseUrl + "/matches"

  /** The match attribute the request filters and sorts on. */
  const DateField := "datetime"

  /** Related resources to embed: the tournament chain of the round, the
      teams (listed twice) and the facility. */
  const Include := "round.group.tournament,teams,teams,facility"

  /** The relationship paths from a match to its season and its manager. */
  const SeasonPath := "round.group.tournament.season.id"
  const ManagerPath := "round.group.tournament.manager.id"

  /** The vendor filter: matches after `from`, of the fixed season and
      manager. */
  function Filter(from: string): string {
    DateField + ">" + from + "," + SeasonPath + ":" + Season + "," + ManagerPath + ":" + Manager
  }

  /** The URL getNextMatches fetches, given today's date as `YYYY-MM-DD`:
      filter, ascending sort on `datetime`, include list, then the JSON:API
      page size and number. The text is the source's template; it is written
      as keys, `=`, `&` and named values so that the general lemmas below
      about `path?k1=v1&…` apply to it term for term, without the solver
      having to take long string literals apart. */
  function NextMatchesUrl(from: string): string {
    MatchesPath + "?" + "filter" + "=" + Filter(from) + "&" + "sort" + "=" + DateField +
    "&" + "include" + "=" + Include + "&" + "page[size]" + "=" + PageSize +
    "&" + "page[number]" + "=" + PageNumber
  }

  /** `now.format("YYYY-MM-DD")` for a calendar date with a four-digit year. */
  function CalendarDate(year: nat, month: nat, day: nat): (from: string)
    requires year < 10000 && 1 <= month <= 12 && 1 <= day <= 31
    ensures |from| == 10 && from[4] == '-' && from[7] == '-'
    ensures forall i :: 0 <= i < |from| && i != 4 && i != 7 ==> IsDigit(from[i])
  {
    var from := Padded(year, 4) + "-" + Padded(month, 2) + "-" + Padded(day, 2);
    assert forall i :: 0 <= i < 4 ==> from[i] == Padded(year, 4)[i];
    assert forall i :: 5 <= i < 7 ==> from[i] == Padded(month, 2)[i - 5];
    assert forall i :: 8 <= i < 10 ==> from[i] == Padded(day, 2)[i - 8];
    from
  }

  /** The written date reads back as the year, month and day it came from. */
  lemma CalendarDateFields(year: nat, month: nat, day: nat)
    requires year < 10000 && 1 <= month <= 12 && 1 <= day <= 31
    ensures AllDigits(CalendarDate(year, month, day)[0..4])
    ensures AllDigits(CalendarDate(year, month, day)[5..7])
    ensures AllDigits(CalendarDate(year, month, day)[8..10])
    ensures Value(CalendarDate(year, month, day)[0..4]) == year
    ensures Value(CalendarDate(year, month, day)[5..7]) == month
    ensures Value(CalendarDate(year, month, day)[8..10]) == day
  {
    var from := CalendarDate(year, month, day);
    assert from[0..4] == Padded(year, 4);
    assert from[5..7] == Padded(month, 2);
    assert from[8..10] == Padded(day, 2);
    ValueOfPadded(year, 4);
    ValueOfPadded(month, 2);
    ValueOfPadded(day, 2);
  }

  // ---------------------------------------------------------------------
  // Writing and reading filters and query strings

  /** Comparison operators of the vendor filter syntax. */
  datatype Comparison = Greater | Less | Equals

  /** One filter predicate: a dotted relationship path, an operator and a value. */
  datatype Predicate = Predicate(path: string, op: Comparison, value: string)

  function OperatorChar(op: Comparison): char {
    match op
    case Greater => '>'
    case Less => '<'
    case Equals => ':'
  }

  function ComparisonOf(c: char): (r: Option<Comparison>)
    ensures r.Some? ==> OperatorChar(r.value) == c
  {
    if c == '>' then Some(Greater) else if c == '<' then Some(Less)
    else if c == ':' then Some(Equals) else None
  }

  predicate NoOperator(s: string) {
    '>' !in s && '<' !in s && ':' !in s
  }

  /** `path>value`, `path<value` or `path:value`. */
  function PredicateText(p: Predicate): string {
    p.path + [OperatorChar(p.op)] + p.value
  }

  function PredicateTexts(ps: seq<Predicate>): (texts: seq<string>)
    ensures |texts| == |ps|
    ensures forall i :: 0 <= i < |ps| ==> texts[i] == PredicateText(ps[i])
  {
    if |ps| == 0 then [] else [PredicateText(ps[0])] + PredicateTexts(ps[1..])
  }

  /** A conjunction of predicates, comma-joined. */
  function FilterText(ps: seq<Predicate>): string {
    Join(PredicateTexts(ps), ',')
  }

  /** Splits `path OP value` at the first operator character. */
  function SplitComparison(s: string): (r: Option<(string, Comparison, string)>)
    ensures r.None? <==> NoOperator(s)
    ensures r.Some? ==> NoOperator(r.value.0) && s == r.value.0 + [OperatorChar(r.value.1)] + r.value.2
    decreases |s|
  {
    if |s| == 0 then None
    else match ComparisonOf(s[0])
      case Some(op) =>
        assert s == [] + [OperatorChar(op)] + s[1..];
        Some(("", op, s[1..]))
      case None =>
        assert s == [s[0]] + s[1..];
        match SplitComparison(s[1..])
        case None => None
        case Some((path, op, value)) => Some(([s[0]] + path, op, value))
  }

  /** Reads one comma-free filter predicate; None when it has no operator. */
  function ParsePredicate(s: string): (r: Option<Predicate>)
    ensures r.None? <==> NoOperator(s)
    ensures r.Some? ==> NoOperator(r.value.path) && PredicateText(r.value) == s
  {
    match SplitComparison(s)
    case None => None
    case Some((path, op, value)) => Some(Predicate(path, op, value))
  }

  /** Reads every piece of a filter; None when one of them is not a predicate. */
  function ParsePredicates(pieces: seq<string>): (r: Option<seq<Predicate>>)
    ensures r.Some? ==> |r.value| == |pieces|
    ensures r.Some? ==> forall i :: 0 <= i < |pieces| ==> PredicateText(r.value[i]) == pieces[i]
  {
    if |pieces| == 0 then Some([])
    else
      var head := ParsePredicate(pieces[0]);
      var tail := ParsePredicates(pieces[1..]);
      if head.Some? && tail.Some? then Some([head.value] + tail.value) else None
  }

  function ParseFilter(filter: string): Option<seq<Predicate>> {
    ParsePredicates(Split(filter, ','))
  }

  /** A query string: `key=value` parameters joined with `&`. */
  function QueryText(params: seq<(string, string)>): string {
    Join(ParameterTexts(params), '&')
  }

  function ParameterTexts(params: seq<(string, string)>): (texts: seq<string>)
    ensures |texts| == |params|
    ensures forall i :: 0 <= i < |params| ==> texts[i] == params[i].0 + "=" + params[i].1
  {
    if |params| == 0 then [] else [params[0].0 + "=" + params[0].1] + ParameterTexts(params[1..])
  }

  /** Reads `key=value` at the first `=`; a piece without one is a key with
      an empty value. */
  function ParseParameter(p: string): (string, string) {
    match SplitAtFirst(p, '=')
    case None => (p, "")
    case Some(kv) => kv
  }

  function ParseParameters(pieces: seq<string>): (r: seq<(string, string)>)
    ensures |r| == |pieces|
    ensures forall i :: 0 <= i < |pieces| ==> r[i] == ParseParameter(pieces[i])
  {
    if |pieces| == 0 then [] else [ParseParameter(pieces[0])] + ParseParameters(pieces[1..])
  }

  /** The path part of a URL and its query parameters. */
  datatype Request = Request(path: string, query: seq<(string, string)>)

  function ParseUrl(url: string): Option<Request> {
    match SplitAtFirst(url, '?')
    case None => None
    case Some((path, query)) => Some(Request(path, ParseParameters(Split(query, '&'))))
  }

  /** JSON:API sort direction: a leading `-` means descending. */
  datatype Direction = Ascending | Descending

  function SortField(sort: string): (r: (string, Direction))
    ensures r.1 == Descending <==> |sort| > 0 && sort[0] == '-'
    ensures sort == (if r.1 == Descending then "-" else "") + r.0
  {
    if |sort| > 0 && sort[0] == '-' then (sort[1..], Descending) else (sort, Ascending)
  }

  // ---------------------------------------------------------------------
  // Round trips of the writers and readers

  lemma {:induction false} SplitComparisonOfText(p: Predicate)
    requires NoOperator(p.path)
    ensures SplitComparison(PredicateText(p)) == Some((p.path, p.op, p.value))
    decreases |p.path|
  {
    var s := PredicateText(p);
    if |p.path| == 0 {
      assert s == [OperatorChar(p.op)] + p.value;
      assert ComparisonOf(s[0]) == Some(p.op);
      assert s[1..] == p.value;
    } else {
      var q := p.(path := p.path[1..]);
      assert s[0] == p.path[0];
      assert s[1..] == PredicateText(q);
      assert p.path[0] in p.path;
      assert ComparisonOf(s[0]) == None;
      SplitComparisonOfText(q);
      assert [p.path[0]] + p.path[1..] == p.path;
    }
  }

  /** A predicate whose path has no operator character reads back as itself. */
  lemma ParsePredicateText(p: Predicate)
    requires NoOperator(p.path)
    ensures ParsePredicate(PredicateText(p)) == Some(p)
  {
    SplitComparisonOfText(p);
  }

  lemma {:induction false} ParsePredicateTexts(ps: seq<Predicate>)
    requires forall i :: 0 <= i < |ps| ==> NoOperator(ps[i].path)
    ensures ParsePredicates(PredicateTexts(ps)) == Some(ps)
    decreases |ps|
  {
    if |ps| > 0 {
      var texts := PredicateTexts(ps);
      assert texts[1..] == PredicateTexts(ps[1..]);
      ParsePredicateTexts(ps[1..]);
      ParsePredicateText(ps[0]);
      assert [ps[0]] + ps[1..] == ps;
    }
  }

  /** A filter written from comma-free predicates reads back as them. */
  lemma ParseFilterText(ps: seq<Predicate>)
    requires |ps| > 0
    requires forall i :: 0 <= i < |ps| ==> NoOperator(ps[i].path) && ',' !in PredicateText(ps[i])
    ensures ParseFilter(FilterText(ps)) == Some(ps)
  {
    SplitJoin(PredicateTexts(ps), ',');
    ParsePredicateTexts(ps);
  }

  /** Each written `key=value` whose key has no `=` reads back as its pair. */
  lemma ParseParameterTexts(params: seq<(string, string)>)
    requires forall i :: 0 <= i < |params| ==> '=' !in params[i].0
    ensures ParseParameters(ParameterTexts(params)) == params
  {
    var texts := ParameterTexts(params);
    forall i | 0 <= i < |params| ensures ParseParameter(texts[i]) == params[i] {
      var (k, v) := params[i];
      SplitAtFirstCons(k, '=', v);
      assert k + "=" + v == k + ['='] + v;
    }
  }

  /** A query string written from `&`-free parameters whose keys have no `=`
      reads back as them. */
  lemma ParseQueryText(params: seq<(string, string)>)
    requires |params| > 0
    requires forall i :: 0 <= i < |params| ==>
      '=' !in params[i].0 && '&' !in params[i].0 && '&' !in params[i].1
    ensures ParseParameters(Split(QueryText(params), '&')) == params
  {
    var texts := ParameterTexts(params);
    forall i | 0 <= i < |texts| ensures '&' !in texts[i] {
      assert texts[i] == params[i].0 + "=" + params[i].1;
    }
    SplitJoin(texts, '&');
    ParseParameterTexts(params);
  }

  /** Writing one more predicate appends a comma and its text. */
  lemma FilterTextSnoc(ps: seq<Predicate>, p: Predicate)
    requires |ps| > 0
    ensures FilterText(ps + [p]) == FilterText(ps) + "," + PredicateText(p)
  {
    assert PredicateTexts(ps + [p]) == PredicateTexts(ps) + [PredicateText(p)];
    JoinSnoc(PredicateTexts(ps), PredicateText(p), ',');
  }

  /** Writing one more parameter appends an ampersand and `key=value`. */
  lemma QueryTextSnoc(params: seq<(string, string)>, k: string, v: string)
    requires |params| > 0
    ensures QueryText(params + [(k, v)]) == QueryText(params) + "&" + k + "=" + v
  {
    assert ParameterTexts(params + [(k, v)]) == ParameterTexts(params) + [k + "=" + v];
    JoinSnoc(ParameterTexts(params), k + "=" + v, '&');
    assert QueryText(params) + "&" + (k + "=" + v) == QueryText(params) + "&" + k + "=" + v;
  }

  /** Three predicates written out: `d>from,sp:s,mp:m`. */
  lemma FilterShape(d: string, from: string, sp: string, s: string, mp: string, m: string)
    requires NoOperator(d) && NoOperator(sp) && NoOperator(mp)
    requires ',' !in d && ',' !in from && ',' !in sp && ',' !in s && ',' !in mp && ',' !in m
    ensures ParseFilter(d + ">" + from + "," + sp + ":" + s + "," + mp + ":" + m) ==
      Some([Predicate(d, Greater, from), Predicate(sp, Equals, s), Predicate(mp, Equals, m)])
  {
    var p1, p2, p3 := Predicate(d, Greater, from), Predicate(sp, Equals, s), Predicate(mp, Equals, m);
    FilterThree(p1, p2, p3);
    assert ',' !in PredicateText(p1) && ',' !in PredicateText(p2) && ',' !in PredicateText(p3);
    ParseFilterText([p1, p2, p3]);
  }

  lemma FilterThree(p1: Predicate, p2: Predicate, p3: Predicate)
    ensures FilterText([p1, p2, p3]) ==
      p1.path + [OperatorChar(p1.op)] + p1.value + "," + p2.path + [OperatorChar(p2.op)] + p2.value +
      "," + p3.path + [OperatorChar(p3.op)] + p3.value
  {
    assert PredicateTexts([p1]) == [PredicateText(p1)];
    FilterTextSnoc([p1], p2);
    assert [p1] + [p2] == [p1, p2];
    FilterTextSnoc([p1, p2], p3);
    assert [p1, p2] + [p3] == [p1, p2, p3];
  }

  /** Five parameters written out after a path: `path?k1=v1&…&k5=v5`. */
  lemma UrlShape(path: string, k1: string, v1: string, k2: string, v2: string, k3: string, v3: string,
                 k4: string, v4: string, k5: string, v5: string)
    requires '?' !in path
    requires '=' !in k1 && '=' !in k2 && '=' !in k3 && '=' !in k4 && '=' !in k5
    requires '&' !in k1 && '&' !in k2 && '&' !in k3 && '&' !in k4 && '&' !in k5
    requires '&' !in v1 && '&' !in v2 && '&' !in v3 && '&' !in v4 && '&' !in v5
    ensures ParseUrl(path + "?" + k1 + "=" + v1 + "&" + k2 + "=" + v2 + "&" + k3 + "=" + v3 +
                     "&" + k4 + "=" + v4 + "&" + k5 + "=" + v5) ==
      Some(Request(path, [(k1, v1), (k2, v2), (k3, v3), (k4, v4), (k5, v5)]))
  {
    var params := [(k1, v1), (k2, v2), (k3, v3), (k4, v4), (k5, v5)];
    var query := QueryText(params);
    QueryShape(k1, v1, k2, v2, k3, v3, k4, v4, k5, v5);
    ReassociateUrl(path, k1, v1, k2, v2, k3, v3, k4, v4, k5, v5);
    SplitAtFirstCons(path, '?', query);
    ParseQueryText(params);
  }

  lemma ReassociateUrl(path: string, k1: string, v1: string, k2: string, v2: string, k3: string, v3: string,
                       k4: string, v4: string, k5: string, v5: string)
    ensures path + "?" + k1 + "=" + v1 + "&" + k2 + "=" + v2 + "&" + k3 + "=" + v3 +
            "&" + k4 + "=" + v4 + "&" + k5 + "=" + v5 ==
      path + ['?'] + (k1 + "=" + v1 + "&" + k2 + "=" + v2 + "&" + k3 + "=" + v3 +
            "&" + k4 + "=" + v4 + "&" + k5 + "=" + v5)
  {
  }

  lemma QueryShape(k1: string, v1: string, k2: string, v2: string, k3: string, v3: string,
                   k4: string, v4: string, k5: string, v5: string)
    ensures QueryText([(k1, v1), (k2, v2), (k3, v3), (k4, v4), (k5, v5)]) ==
      k1 + "=" + v1 + "&" + k2 + "=" + v2 + "&" + k3 + "=" + v3 + "&" + k4 + "=" + v4 + "&" + k5 + "=" + v5
  {
    var p1 := [(k1, v1)];
    assert QueryText(p1) == k1 + "=" + v1;
    QueryTextSnoc(p1, k2, v2);
    var p2 := p1 + [(k2, v2)];
    QueryTextSnoc(p2, k3, v3);
    var p3 := p2 + [(k3, v3)];
    QueryTextSnoc(p3, k4, v4);
    var p4 := p3 + [(k4, v4)];
    QueryTextSnoc(p4, k5, v5);
    assert p4 + [(k5, v5)] == [(k1, v1), (k2, v2), (k3, v3), (k4, v4), (k5, v5)];
  }

  // ---------------------------------------------------------------------
  // Properties of the request of getNextMatches

  lemma DateFieldHasNoOperator()
    ensures NoOperator(DateField)
  {
  }

  lemma SeasonPathHasNoOperator()
    ensures NoOperator(SeasonPath)
  {
  }

  lemma ManagerPathHasNoOperator()
    ensures NoOperator(ManagerPath)
  {
  }

  /** Characters the fixed parts of the filter do not contain. These facts
      about string constants are split over a few lemmas because a fact
      about a long literal is cheap for the solver alone and costly in
      company. */
  lemma FilterTextsArePlain()
    ensures ',' !in DateField && ',' !in SeasonPath && ',' !in ManagerPath
    ensures ',' !in Season && ',' !in Manager
  {
  }

  /** Characters the fixed parts of the query string do not contain. */
  lemma QueryTextsArePlain()
    ensures '?' !in MatchesPath
    ensures '=' !in "filter" && '&' !in "filter" && '=' !in "sort" && '&' !in "sort"
    ensures '=' !in "include" && '&' !in "include"
    ensures '=' !in "page[size]" && '&' !in "page[size]"
    ensures '=' !in "page[number]" && '&' !in "page[number]"
  {
  }

  /** The fixed values of the query string, and of the filter inside it,
      contain no `&`. */
  lemma QueryValuesArePlain()
    ensures '&' !in DateField && '&' !in Include && '&' !in PageSize && '&' !in PageNumber
    ensures '&' !in SeasonPath && '&' !in ManagerPath && '&' !in Season && '&' !in Manager
  {
  }

  /** The filter is three comma-joined predicates in a fixed order: the
      date bound `datetime>from`, then the season, then the manager, each
      scoped through round, group and tournament. */
  lemma FilterPredicates(from: string)
    requires ',' !in from
    ensures ParseFilter(Filter(from)) == Some([
      Predicate(DateField, Greater, from),
      Predicate(SeasonPath, Equals, Season),
      Predicate(ManagerPath, Equals, Manager)])
  {
    DateFieldHasNoOperator();
    SeasonPathHasNoOperator();
    ManagerPathHasNoOperator();
    FilterTextsArePlain();
    FilterShape(DateField, from, SeasonPath, Season, ManagerPath, Manager);
  }


  /** The URL addresses the matches collection and carries exactly five
      query parameters, in this order: the filter, the sort on `datetime`,
      the include list and the two JSON:API page parameters. */
  lemma NextMatchesQuery(from: string)
    requires '&' !in from
    ensures ParseUrl(NextMatchesUrl(from)) == Some(Request(MatchesPath, [
      ("filter", Filter(from)), ("sort", DateField), ("include", Include),
      ("page[size]", PageSize), ("page[number]", PageNumber)]))
  {
    QueryTextsArePlain();
    QueryValuesArePlain();
    UrlShape(MatchesPath, "filter", Filter(from), "sort", DateField, "include", Include,
      "page[size]", PageSize, "page[number]", PageNumber);
  }

  /** Matches come back in ascending date order: the sort field has no `-`. */
  lemma NextMatchesSortAscending(from: string)
    requires '&' !in from
    ensures ParseUrl(NextMatchesUrl(from)).Some?
    ensures |ParseUrl(NextMatchesUrl(from)).value.query| == 5
    ensures ParseUrl(NextMatchesUrl(from)).value.query[1].0 == "sort"
    ensures SortField(ParseUrl(NextMatchesUrl(from)).value.query[1].1) == (DateField, Ascending)
  {
    NextMatchesQuery(from);
    assert DateField[0] != '-';
  }

  /** Four names joined by commas split back into them. */
  lemma FourPieces(a: string, b: string, c: string, d: string)
    requires ',' !in a && ',' !in b && ',' !in c && ',' !in d
    ensures Split(a + "," + b + "," + c + "," + d, ',') == [a, b, c, d]
  {
    ReassociateFour(a, b, c, d);
    SplitFour(a, b, c, d);
  }

  lemma ReassociateFour(a: string, b: string, c: string, d: string)
    ensures a + "," + b + "," + c + "," + d == a + [','] + (b + [','] + (c + [','] + d))
  {
  }

  lemma SplitFour(a: string, b: string, c: string, d: string)
    requires ',' !in a && ',' !in b && ',' !in c && ',' !in d
    ensures Split(a + [','] + (b + [','] + (c + [','] + d)), ',') == [a, b, c, d]
  {
    var cd := c + [','] + d;
    SplitPlain(d, ',');
    SplitCons(c, ',', d);
    assert Split(cd, ',') == [c, d];
    SplitCons(b, ',', cd);
    SplitCons(a, ',', b + [','] + cd);
  }

  lemma IncludeIsFour()
    ensures Include == "round.group.tournament" + "," + "teams" + "," + "teams" + "," + "facility"
    ensures ',' !in "round.group.tournament" && ',' !in "teams" && ',' !in "facility"
  {
  }

  /** The include parameter names four relationship paths, `teams` twice. */
  lemma IncludePaths()
    ensures Split(Include, ',') == ["round.group.tournament", "teams", "teams", "facility"]
  {
    IncludeIsFour();
    FourPieces("round.group.tournament", "teams", "teams", "facility");
  }

  /** The filter with the date cut out of it. */
  lemma FilterAroundDate(d: string, x: string, sp: string, s: string, mp: string, m: string)
    ensures d + ">" + x + "," + sp + ":" + s + "," + mp + ":" + m ==
      (d + ">") + x + ("," + sp + ":" + s + "," + mp + ":" + m)
  {
  }

  /** The URL with the filter cut out of it. */
  lemma UrlAroundFilter(path: string, k1: string, f: string, k2: string, v2: string, k3: string, v3: string,
                        k4: string, v4: string, k5: string, v5: string)
    ensures path + "?" + k1 + "=" + f + "&" + k2 + "=" + v2 + "&" + k3 + "=" + v3 +
            "&" + k4 + "=" + v4 + "&" + k5 + "=" + v5 ==
      (path + "?" + k1 + "=") + f +
      ("&" + k2 + "=" + v2 + "&" + k3 + "=" + v3 + "&" + k4 + "=" + v4 + "&" + k5 + "=" + v5)
  {
  }

  /** The URL with the date cut out of it: what comes before the date and
      what comes after it do not depend on the date. */
  lemma UrlAroundDate(x: string)
    ensures NextMatchesUrl(x) ==
      (MatchesPath + "?" + "filter" + "=" + (DateField + ">")) + x +
      (("," + SeasonPath + ":" + Season + "," + ManagerPath + ":" + Manager) +
       ("&" + "sort" + "=" + DateField + "&" + "include" + "=" + Include +
        "&" + "page[size]" + "=" + PageSize + "&" + "page[number]" + "=" + PageNumber))
  {
    var before, after := MatchesPath + "?" + "filter" + "=", "&" + "sort" + "=" + DateField +
      "&" + "include" + "=" + Include + "&" + "page[size]" + "=" + PageSize +
      "&" + "page[number]" + "=" + PageNumber;
    var d, rest := DateField + ">", "," + SeasonPath + ":" + Season + "," + ManagerPath + ":" + Manager;
    UrlAroundFilter(MatchesPath, "filter", Filter(x), "sort", DateField, "include", Include,
      "page[size]", PageSize, "page[number]", PageNumber);
    FilterAroundDate(DateField, x, SeasonPath, Season, ManagerPath, Manager);
    assert NextMatchesUrl(x) == before + (d + x + rest) + after;
    assert before + (d + x + rest) + after == (before + d) + x + (rest + after);
  }

  /** The date is the only input that varies: different dates give
      different URLs, and equal dates equal ones. */
  lemma NextMatchesUrlInjective(a: string, b: string)
    ensures NextMatchesUrl(a) == NextMatchesUrl(b) <==> a == b
  {
    if NextMatchesUrl(a) == NextMatchesUrl(b) {
      UrlAroundDate(a);
      UrlAroundDate(b);
      CancelAround(MatchesPath + "?" + "filter" + "=" + (DateField + ">"), a, b,
        ("," + SeasonPath + ":" + Season + "," + ManagerPath + ":" + Manager) +
        ("&" + "sort" + "=" + DateField + "&" + "include" + "=" + Include +
         "&" + "page[size]" + "=" + PageSize + "&" + "page[number]" + "=" + PageNumber));
    }
  }

  /** A date written as `YYYY-MM-DD` meets the requirements of the lemmas
      above, so the filter and query read back as stated for every day. */
  lemma CalendarDateIsPlain(year: nat, month: nat, day: nat)
    requires year < 10000 && 1 <= month <= 12 && 1 <= day <= 31
    ensures ',' !in CalendarDate(year, month, day) && '&' !in CalendarDate(year, month, day)
  {
    var from := CalendarDate(year, month, day);
    forall i | 0 <= i < |from| ensures from[i] != ',' && from[i] != '&' {
      if i != 4 && i != 7 { assert IsDigit(from[i]); }
    }
  }
}
