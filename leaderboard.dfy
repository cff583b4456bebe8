/** The ranking of src/components/Leaderboard.tsx: rows of the
    leaderboard view with a missing field are dropped, the rest are sorted by
    level, then words typed, both descending; the first three places get a
    medal and every other place shows its rank. */
module Leaderboard {
  import opened Options
  import opened Sorting

  /** A row of `leaderboard_view`; each field may be null. */
  datatype Row = Row(username: Option<string>, level: Option<int>, wordsTyped: Option<int>)

  /** A row with every field present. */
  datatype Entry = Entry(username: string, level: int, wordsTyped: int)

  predicate Complete(row: Row)
  {
    row.username.Some? && row.level.Some? && row.wordsTyped.Some?
  }

  function ToEntry(row: Row): Entry
    requires Complete(row)
  {
    Entry(row.username.value, row.level.value, row.wordsTyped.value)
  }

  /** The complete row an entry comes from. */
  function FromEntry(e: Entry): Row
  {
    Row(Some(e.username), Some(e.level), Some(e.wordsTyped))
  }

  /** The filter step: the complete rows, in order. Each entry occurs as
      often as the complete row it comes from; order is the subject of
      `ValidEntriesConcat`. */
  function ValidEntries(rows: seq<Row>): (entries: seq<Entry>)
    ensures |entries| <= |rows|
    ensures forall e :: e in entries <==> FromEntry(e) in rows
    ensures forall e :: multiset(entries)[e] == multiset(rows)[FromEntry(e)]
    ensures |rows| == 1 ==> entries == if Complete(rows[0]) then [ToEntry(rows[0])] else []
  {
    if rows == [] then []
    else
      var rest := ValidEntries(rows[1..]);
      assert rows == [rows[0]] + rows[1..];
      assert forall r :: r in rows <==> r == rows[0] || r in rows[1..];
      if Complete(rows[0]) then [ToEntry(rows[0])] + rest else rest
  }

  /** Filtering commutes with concatenation; with the one-row case of
      `ValidEntries`, this fixes the order of the entries: they follow
      their rows. */
  lemma {:induction false} ValidEntriesConcat(a: seq<Row>, b: seq<Row>)
    ensures ValidEntries(a + b) == ValidEntries(a) + ValidEntries(b)
  {
    if a == [] {
      assert a + b == b;
    } else {
      assert (a + b)[1..] == a[1..] + b;
      ValidEntriesConcat(a[1..], b);
    }
  }

  /** The comparator handed to `sort`: by level, then by words typed, the
      higher first. */
  function Compare(a: Entry, b: Entry): int
  {
    if b.level != a.level then b.level - a.level else b.wordsTyped - a.wordsTyped
  }

  /** `a` may be ranked before `b`. */
  predicate RanksAbove(a: Entry, b: Entry)
  {
    Compare(a, b) <= 0
  }

  lemma RanksAboveOrders()
    ensures Total(RanksAbove) && Transitive(RanksAbove)
  {
  }

  /** The leaders in display order: the complete rows, no more and no fewer,
      by level descending and, within a level, by words typed descending. */
  function Ranking(rows: seq<Row>): (leaders: seq<Entry>)
    ensures multiset(leaders) == multiset(ValidEntries(rows))
    ensures |leaders| <= |rows|
    ensures forall e :: e in leaders <==> Row(Some(e.username), Some(e.level), Some(e.wordsTyped)) in rows
    ensures forall i, j :: 0 <= i < j < |leaders| ==>
      leaders[i].level > leaders[j].level ||
      (leaders[i].level == leaders[j].level && leaders[i].wordsTyped >= leaders[j].wordsTyped)
  {
    var entries := ValidEntries(rows);
    RanksAboveOrders();
    SortBySorted(entries, RanksAbove);
    var leaders := SortBy(entries, RanksAbove);
    assert forall e :: e in leaders <==> e in multiset(entries);
    leaders
  }

  /** Players with the same level and the same words typed keep the order
      the query returned them in. */
  lemma RankingKeepsTies(rows: seq<Row>, e: Entry)
    ensures Equivalents(Ranking(rows), e, RanksAbove) == Equivalents(ValidEntries(rows), e, RanksAbove)
  {
    RanksAboveOrders();
    SortByStable(ValidEntries(rows), e, RanksAbove);
  }

  /** The answer of the leaderboard query: an error, or data that may be
      null. */
  datatype Response = QueryError | Data(rows: Option<seq<Row>>)

  /** What the leaderboard page shows after loading. */
  datatype View = LoadError | Leaders(leaders: seq<Entry>)

  /** `fetchLeaderboard`: a failed query shows the error; null data ranks as
      no rows. */
  function FetchLeaderboard(response: Response): (view: View)
    ensures response.QueryError? <==> view.LoadError?
    ensures response.Data? && response.rows.None? ==> view == Leaders([])
    ensures response.Data? && response.rows.Some? ==> view == Leaders(Ranking(response.rows.value))
  {
    match response
    case QueryError => LoadError
    case Data(rows) => Leaders(Ranking(rows.GetOr([])))
  }

  /** What the first column of a place shows. */
  datatype Badge = GoldMedal | SilverMedal | BronzeMedal | Rank(n: nat)

  /** The badge at a zero-based position of the list. */
  function BadgeAt(index: nat): (b: Badge)
    ensures b.Rank? <==> index >= 3
    ensures b.Rank? ==> b.n == index + 1
    ensures index == 0 <==> b == GoldMedal
    ensures index == 1 <==> b == SilverMedal
    ensures index == 2 <==> b == BronzeMedal
  {
    if index == 0 then GoldMedal
    else if index == 1 then SilverMedal
    else if index == 2 then BronzeMedal
    else Rank(index + 1)
  }
}
