/** The empty-state message of src/Empty.tsx: a phrase for the selected
    period, then the selected category's and club's names, or an "all"
    label when nothing is selected. The category and club tables are
    static data files; here they are parameters. */
module Empty {

  import opened Js
  import opened Decimal

  /** The `Period` enumeration of src/Filter.tsx. */
  datatype Period = Past | Future
  {
    /** The numeric value the enumeration member stands for. */
    function Value(): (n: int)
      ensures n == 1 <==> this == Future
      ensures n == -1 <==> this == Past
    {
      match this
      case Past => -1
      case Future => 1
    }
  }

  /** `selectedPeriod === Period.FUTURE ? 'propers partits' : 'partits passats'`;
      the selection is the number the filter form stored. */
  function PeriodPhrase(selectedPeriod: int): (phrase: string)
    ensures phrase == "propers partits" <==> selectedPeriod == Future.Value()
    ensures phrase == "partits passats" <==> selectedPeriod != Future.Value()
  {
    if selectedPeriod == Future.Value() then "propers partits" else "partits passats"
  }

  /** The integers `${n}` writes in plain decimal: JavaScript switches to
      exponent notation from 10^21 on. */
  type PlainInteger = n: int | -1_000_000_000_000_000_000_000 < n < 1_000_000_000_000_000_000_000

  /** An `id` of a static table entry: a JSON number or a JSON string. */
  datatype ConfigId = NumberId(number: PlainInteger) | TextId(text: string)

  /** `${c.id}`. */
  function Stringify(id: ConfigId): (s: string)
    ensures id.NumberId? ==> s == IntText(id.number)
  {
    match id
    case NumberId(n) => IntText(n)
    case TextId(t) => t
  }

  /** A category or club: its id and display name. */
  datatype Entry = Entry(id: ConfigId, name: string)

  function Selects(selected: string): Entry -> bool {
    (e: Entry) => Stringify(e.id) == selected
  }

  /** `selected ? entries.find(c => `${c.id}` === selected)?.name : allText`:
      the "all" label for an empty selection, otherwise the name of the
      first entry whose stringified id is the selection, or nothing. */
  function SelectionLabel(entries: seq<Entry>, selected: string, allText: string): (shown: Option<string>)
    ensures selected == "" ==> shown == Some(allText)
    ensures selected != "" ==>
      (shown.None? <==> forall i :: 0 <= i < |entries| ==> Stringify(entries[i].id) != selected)
    ensures selected != "" && shown.Some? ==>
      exists i :: IsFirst(entries, Selects(selected), i) && shown.value == entries[i].name
  {
    if selected == "" then Some(allText)
    else match Find(entries, Selects(selected))
      case None => None
      case Some(e) => Some(e.name)
  }

  /** A non-empty selection shows the name of the first matching entry. */
  lemma SelectionLabelFirst(entries: seq<Entry>, selected: string, allText: string, i: int)
    requires selected != ""
    requires IsFirst(entries, Selects(selected), i)
    ensures SelectionLabel(entries, selected, allText) == Some(entries[i].name)
  {
    FindReturnsFirst(entries, Selects(selected), i);
  }

  /** With numeric ids, selecting `${n}` picks the first entry whose id is
      exactly n: no other number is written the same way. */
  lemma SelectNumber(entries: seq<Entry>, n: PlainInteger, allText: string, i: int)
    requires forall k :: 0 <= k < |entries| ==> entries[k].id.NumberId?
    requires 0 <= i < |entries| && entries[i].id == NumberId(n)
    requires forall k :: 0 <= k < i ==> entries[k].id != NumberId(n)
    ensures SelectionLabel(entries, IntText(n), allText) == Some(entries[i].name)
  {
    var selected := IntText(n);
    forall k | 0 <= k < i ensures !Selects(selected)(entries[k]) {
      if Stringify(entries[k].id) == selected {
        IntTextInjective(entries[k].id.number, n);
      }
    }
    SelectionLabelFirst(entries, selected, allText, i);
  }

  /** The category line. */
  function CategoryLabel(categories: seq<Entry>, selectedCategory: string): (shown: Option<string>)
    ensures selectedCategory == "" ==> shown == Some("Totes les categories")
    ensures selectedCategory != "" ==> shown == SelectionLabel(categories, selectedCategory, "")
  {
    SelectionLabel(categories, selectedCategory, "Totes les categories")
  }

  /** The club line. */
  function ClubLabel(clubs: seq<Entry>, selectedClub: string): (shown: Option<string>)
    ensures selectedClub == "" ==> shown == Some("Tots els clubs")
    ensures selectedClub != "" ==> shown == SelectionLabel(clubs, selectedClub, "")
  {
    SelectionLabel(clubs, selectedClub, "Tots els clubs")
  }
}
