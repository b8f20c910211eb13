# Water polo match listing — a Dafny model

This project models the read side of a small web application that lists
upcoming water polo matches. The data comes from a JSON:API sports
service:

- **Request.** `getNextMatches` builds one request URL. It carries a vendor
  filter (matches after today, for a fixed season and manager), an
  ascending sort on `datetime`, an include list (round → group →
  tournament, teams, facility) and fixed page parameters.
- **Response.** A compound document. `data` holds the matches and
  `included` holds the related tournaments, groups, facilities, rounds
  and teams.
- **Resolution.** Each match becomes display fields by first-match lookups
  in `included` on both `type` and `id`:
  - the tournament name, reached through the round and its group;
  - the round name and the facility name;
  - the home and away teams.
- **Dates.** The match `date` (`yyyy-MM-dd HH:mm:ss`, UTC) is split into a
  `dd/MM` day and an `HH:mm` hour.
- **Empty state.** When nothing is listed, the page shows a phrase for the
  selected period and the names of the selected category and club. When
  nothing is selected, it shows an "all" label instead.

Modules:

- `Js` (js.dfy): JavaScript notions the application relies on.
  - null and undefined, both read as `None`.
  - String truthiness (`Truthy`).
  - `Array.prototype.find` (`Find`), specified by "first index satisfying
    the predicate".
- `Strings` (strings.dfy): `Split`, `Join` and `SplitAtFirst` on one
  separator character, with their round trips.
- `Decimal` (decimal.dfy): reading digit runs, zero-padded writing (the
  date patterns) and `${n}` for integers.
- `Api` (api.dfy): the resource datatype with one constructor per `type`,
  the `MatchResponse` document and the request URL as a function of the
  `from` date.
  - To state what the URL carries, the module has writers and readers for
    the vendor filter syntax (`path>value`, `path:value`, comma-joined)
    and for the query string (`key=value`, `&`-joined), with round-trip
    lemmas.
  - The concrete request is then shown to read back as its parts.
- `DateDisplay` (parse_date.dfy): `parseDate`, assuming the display time
  zone is UTC.
- `App` (app.dfy): the lookups `tournamentName`, `roundName`,
  `facilityName` and `team`, and the per-match resolution of the listing.
- `Empty` (empty.dfy): the period phrase and the category and club labels.

## Model

| member | source | states |
|---|---|---|
| Js.Find | src/App.tsx:25 | `find` returns nothing exactly when no element satisfies the predicate; otherwise it returns the element at the first satisfying index |
| Js.FindReturnsFirst | src/App.tsx:25 | given the first satisfying index, `find` returns exactly that element |
| Api.Resource.Tag | src/Api.ts:4-159 | each resource kind has its own `type` tag, and the tag identifies the kind in both directions |
| Api.CalendarDate | src/Api.ts:176 | `YYYY-MM-DD` is ten characters: digits with `-` at positions 4 and 7 |
| Api.CalendarDateFields | src/Api.ts:176 | the year, month and day read back from the written date are the ones written |
| Api.CalendarDateIsPlain | src/Api.ts:176-177 | a written date has no `,` and no `&`, so it cannot break the filter or the query |
| Api.SplitComparison | src/Api.ts:177 | a predicate text splits at its first operator, and the part before it has no operator; the result is none exactly when there is no operator |
| Api.ParsePredicate | src/Api.ts:177 | reading a predicate gives back an operator-free path whose text is the input; it fails exactly when there is no operator |
| Api.ParsePredicateText | src/Api.ts:177 | a written predicate with an operator-free path reads back as itself |
| Api.ParseFilterText | src/Api.ts:177 | a comma-joined list of comma-free predicates reads back as the list, in order |
| Api.ParseQueryText | src/Api.ts:179-181 | an `&`-joined list of `key=value` parameters reads back as the list, in order |
| Api.FilterShape | src/Api.ts:177 | text of the form `d>from,sp:s,mp:m` reads as three predicates: a greater-than and two equalities, in that order |
| Api.UrlShape | src/Api.ts:181 | text of the form `path?k1=v1&…&k5=v5` reads as that path and those five parameters, in order |
| Api.FilterPredicates | src/Api.ts:171-177 | the filter is exactly three predicates, in order: `datetime>from`, then season `7618`, then manager `314965`, each reached through round, group and tournament |
| Api.NextMatchesQuery | src/Api.ts:2-181 | the URL addresses `https://api.leverade.com/matches` and carries exactly five parameters in order: filter, `sort=datetime`, the include list, `page[size]=50`, `page[number]=1` |
| Api.NextMatchesSortAscending | src/Api.ts:181 | the sort parameter is `datetime` with no `-`, so the order is ascending |
| Api.IncludePaths | src/Api.ts:178 | the include list names four paths: `round.group.tournament`, `teams` (twice) and `facility` |
| Api.NextMatchesUrlInjective | src/Api.ts:171-181 | `from` is the only input that varies: for any two `from` texts, the URLs are equal exactly when the texts are |
| Api.SortField | src/Api.ts:181 | a JSON:API sort field is descending exactly when it starts with `-`, and the field name is the rest |
| DateDisplay.ParseDate | src/util/parseDate.ts:3-13 | a null or empty date gives two empty strings; otherwise the day has the `dd/MM` shape (day 01-31, month 01-12) and the hour has the `HH:mm` shape (hour under 24, minute under 60) |
| DateDisplay.ParseDateSlices | src/util/parseDate.ts:6-11 | for accepted text, the day is characters 8-9, `/`, then characters 5-6, and the hour is characters 11-15; seconds are dropped |
| DateDisplay.ParseDateOfInstant | src/util/parseDate.ts:6-11 | an instant written by the server is shown as its own zero-padded day, month, hour and minute |
| DateDisplay.ParseDateIgnoresYearAndSeconds | src/util/parseDate.ts:10-11 | two dates that differ only in year and seconds are displayed identically |
| DateDisplay.ReadWriteTimestamp | src/util/parseDate.ts:6 | writing a valid instant gives text the parser accepts, and that text reads back as the instant |
| DateDisplay.WriteReadTimestamp | src/util/parseDate.ts:6 | accepted text is exactly the written form of the instant it denotes |
| Decimal.ValueOfPadded | src/util/parseDate.ts:10-11 | zero-padding a number that fits the width loses nothing |
| Decimal.PaddedOfValue | src/util/parseDate.ts:10-11 | re-padding the value of a digit run to its width gives the run back |
| Decimal.IntTextInjective | src/Empty.tsx:16-17 | distinct integers are written differently by `${n}` |
| App.Lookup | src/App.tsx:25 | a lookup returns an element of `included` with the requested type and id, and returns nothing exactly when no element has both |
| App.LookupFirst | src/App.tsx:25 | a lookup returns the first element whose type and id both match |
| App.LookupAppend | src/App.tsx:28 | a lookup over two lists concatenated returns the first list's result if it has one, else the second's |
| App.LookupSkipsOtherKinds | src/App.tsx:31 | inserting a resource of another kind anywhere in `included` never changes a lookup |
| App.TournamentName | src/App.tsx:22-35 | a null or empty round id gives `''`; any other result is the name of a tournament in `included` |
| App.TournamentNameResolved | src/App.tsx:25-34 | along the first-match chain round → group → tournament, the result is that tournament's name |
| App.TournamentNameNoRound | src/App.tsx:25-26 | with no round of that id, the result is `''` |
| App.TournamentNameNoGroup | src/App.tsx:28-29 | when the round's group is missing, the result is `''` |
| App.TournamentNameNoTournament | src/App.tsx:31-32 | when the group's tournament is missing, the result is `''` |
| App.RoundName | src/App.tsx:41-48 | a null or empty id, or a missing round, gives `''`; any other result is the name of a round with that id |
| App.RoundNameResolved | src/App.tsx:44-47 | the result is the name of the first round with that id |
| App.FacilityName | src/App.tsx:50-57 | a null or empty id, or a missing facility, gives `''`; any other result is the name of a facility with that id |
| App.FacilityNameResolved | src/App.tsx:53-56 | the result is the name of the first facility with that id |
| App.FindTeam | src/App.tsx:37-39 | returns a team of `included` with that id, and returns nothing exactly when there is none |
| App.SideTeam | src/App.tsx:79-80 | a null or empty `home_team`/`away_team` gives no team; any team found has that id |
| App.SideTeamResolved | src/App.tsx:79-80 | a non-empty side id resolves to the first team with that id |
| App.ResolveMatch | src/App.tsx:74-82 | the tournament and round texts are tournamentName and roundName of the round's id (`round.data?.id`); the facility text is facilityName of the facility's id; each side's team is the `team` lookup of its id, or none when the id is null or empty; day and hour are parseDate of the date; a null round or facility relationship gives `''` |
| App.ResolveMatchNames | src/App.tsx:75-77 | when the round, its group, that group's tournament and the facility are all present, a match shows the names of the first matching round, tournament and facility |
| App.ResolveMatchTeams | src/App.tsx:79-80 | when both side ids are set, a match shows the first team with each id |
| App.ResolveAll | src/App.tsx:74 | one view per match, at the same position |
| App.ResolveMatches | src/App.tsx:74-82 | the listing has exactly one view per element of `data`, in the same order |
| App.ResolveAllAppend | src/App.tsx:74 | listing two match lists concatenated lists each in turn |
| Empty.Period.Value | src/Filter.tsx:6-9 | `FUTURE` is 1 and `PAST` is -1, and each value names only its member |
| Empty.PeriodPhrase | src/Empty.tsx:15 | `propers partits` exactly when the period is `FUTURE`, `partits passats` exactly otherwise |
| Empty.Stringify | src/Empty.tsx:16-17 | a numeric id is written as `${n}` |
| Empty.SelectionLabel | src/Empty.tsx:16-17 | an empty selection shows the "all" text; otherwise it shows nothing exactly when no entry's stringified id equals the selection, else the name of the first entry whose id does |
| Empty.SelectionLabelFirst | src/Empty.tsx:16-17 | a non-empty selection shows the name of the first matching entry |
| Empty.SelectNumber | src/Empty.tsx:16 | with numeric ids, selecting `${n}` shows the first entry whose id is exactly n |
| Empty.CategoryLabel | src/Empty.tsx:16 | an empty category selection shows `Totes les categories`; otherwise the category lookup |
| Empty.ClubLabel | src/Empty.tsx:17 | an empty club selection shows `Tots els clubs`; otherwise the club lookup |
| Strings.Split | src/Api.ts:177-181 | the pieces are free of the separator, and joining them again gives the input back |
| Strings.SplitJoin | src/Api.ts:177-181 | joining separator-free parts and splitting the result gives the parts back |
| Strings.SplitAtFirst | src/Api.ts:181 | the text before the first separator has no separator, and the input is that text, the separator, then the rest; the result is none exactly when there is no separator |

## Left out

- The network call and JSON decoding (`fetch`, `response.json()`). The
  decoded `MatchResponse` is an input to the model.
- The clock (`moment()`). The request is a function of the `from` date;
  `CalendarDate` writes a given calendar date the way `YYYY-MM-DD` does.
- React state, effects and all rendering (the JSX of the listing, match
  cards, teams, header, loading indicator and the filter dialog).
- Time zones in the date library. The display zone is taken to be UTC, so
  formatting shows the calendar fields that were parsed.
- DateDisplay.ParseDate: requires a date that is null, empty, or text in
  the exact `yyyy-MM-dd HH:mm:ss` layout denoting a real instant with a
  year from 1 to 9999. Other text is outside the model. Where the date
  library yields an Invalid Date (year 0, a day the month does not have,
  letters), the `!parsedDate` guard lets it through, because an Invalid
  Date is a truthy object. Formatting it then throws. So the code does not
  turn malformed dates into empty strings, though the guard
  (src/util/parseDate.ts:7) suggests that was intended. The model follows
  the code. Text the library accepts leniently is also outside the model,
  such as single-digit fields ("2024-7-4 18:30:00").
- App.ResolveMatch and App.ResolveMatches: require every match date to be
  displayable, for the reason just given.
- The `parseDate` copy inside src/App.tsx (lines 59-69) is identical to
  src/util/parseDate.ts and is modelled once.
- Always-null fields are not stored: round `limit_date`, team
  `adjusted_phaseresult_value`, `canceled` and `category`. The `type`
  member of relationship data is fixed by its declaration.
- Numbers in the response are modelled as `int`, coordinates as `real`.
  They are carried but never computed with.
- The static tables `data/clubs.json` and `data/categories.json` are not
  part of this model. They are parameters (`Empty.Entry` lists).
- A period value outside the enumeration is simply "not `FUTURE`". The
  `NaN` that `+e.target.value` could produce is not modelled.
- Api.NextMatchesQuery and Api.FilterPredicates: require a `from` without
  `,` and `&`. Every `YYYY-MM-DD` date meets this (Api.CalendarDateIsPlain).
  Other texts would change how the request is read, not how it is written.
- Empty.Stringify: numeric ids are integers of magnitude below 10^21
  (`Empty.PlainInteger`). JavaScript writes larger numbers in exponent
  form (`1e+21`). Non-integer numeric ids are not modelled either.
- Federation merging, per-federation ids, gender filtering, result
  pairing and result styling appear in none of the modelled files.
