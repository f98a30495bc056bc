/** Per-source statistics over the event history. */
module Stats {
  import opened EventIds
  import opened Models
  import opened Sums
  import opened Text

  datatype HistoryRow = HistoryRow(eventId: string, status: string, createdAt: int)

  /** Unix second of the zero time.Time. */
  const ZERO_UNIX := -62135596800

  function CleanStatus(row: HistoryRow): string {
    if Trim(row.status) == "" then "unknown" else Trim(row.status)
  }

  predicate BelongsTo(row: HistoryRow, platform: string, id: string, since: int) {
    row.createdAt >= since && ParseSource(row.eventId) == Some((platform, id))
  }

  /** The recent rows of one source, in table order. */
  function Matching(rows: seq<HistoryRow>, platform: string, id: string, since: int): seq<HistoryRow> {
    if rows == [] then []
    else
      var before, row := rows[..|rows| - 1], rows[|rows| - 1];
      Matching(before, platform, id, since) + if BelongsTo(row, platform, id, since) then [row] else []
  }

  /** Exactly the rows that belong to the source, each as often as the history holds it. */
  lemma {:induction false} MatchingIsExact(rows: seq<HistoryRow>, platform: string, id: string, since: int, row: HistoryRow)
    ensures multiset(Matching(rows, platform, id, since))[row]
         == if BelongsTo(row, platform, id, since) then multiset(rows)[row] else 0
  {
    if rows != [] {
      assert rows == rows[..|rows| - 1] + [rows[|rows| - 1]];
      MatchingIsExact(rows[..|rows| - 1], platform, id, since, row);
    }
  }

  datatype ChatStats = ChatStats(counts: map<string, int>, lastEventAt: int)

  function CountOf(counts: map<string, int>, status: string): int {
    if status in counts then counts[status] else 0
  }

  /** The statistics after one more matching row. */
  function AddRow(stats: ChatStats, row: HistoryRow): ChatStats {
    AddStatus(stats, CleanStatus(row), row.createdAt)
  }

  function AddStatus(stats: ChatStats, status: string, at: int): ChatStats {
    ChatStats(stats.counts[status := CountOf(stats.counts, status) + 1],
              if stats.lastEventAt == ZERO_UNIX || at > stats.lastEventAt then at else stats.lastEventAt)
  }

  function Tally(mine: seq<HistoryRow>): ChatStats {
    if mine == [] then ChatStats(map[], ZERO_UNIX) else AddRow(Tally(mine[..|mine| - 1]), mine[|mine| - 1])
  }

  lemma MatchingStep(rows: seq<HistoryRow>, i: nat, platform: string, id: string, since: int)
    requires i < |rows|
    ensures BelongsTo(rows[i], platform, id, since) ==>
              Matching(rows[..i + 1], platform, id, since) == Matching(rows[..i], platform, id, since) + [rows[i]]
    ensures !BelongsTo(rows[i], platform, id, since) ==>
              Matching(rows[..i + 1], platform, id, since) == Matching(rows[..i], platform, id, since)
  {
    assert rows[..i + 1][..i] == rows[..i];
  }

  lemma TallyStep(mine: seq<HistoryRow>, row: HistoryRow)
    ensures Tally(mine + [row]) == AddRow(Tally(mine), row)
  {
    assert (mine + [row])[..|mine|] == mine;
  }

  /** The WHERE clause of the query and the source check of the loop. */
  method IsMine(row: HistoryRow, platform: string, id: string, since: int) returns (mine: bool)
    ensures mine == BelongsTo(row, platform, id, since)
  {
    if row.createdAt < since {
      return false;
    }
    var source := ParseSource(row.eventId);
    if source.None? {
      return false;
    }
    return source.value.0 == platform && source.value.1 == id;
  }

  lemma EmptyTally(platform: string, id: string, since: int)
    ensures Tally(Matching([], platform, id, since)) == ChatStats(map[], ZERO_UNIX)
  {
  }

  method GetChatStats(rows: seq<HistoryRow>, sourcePlatform: string, sourceId: string, since: int) returns (stats: Option<ChatStats>)
    ensures stats == if Trim(sourcePlatform) == "" || Trim(sourceId) == "" then None
                     else Some(Tally(Matching(rows, Trim(sourcePlatform), Trim(sourceId), since)))
  {
    var platform, id := Trim(sourcePlatform), Trim(sourceId);
    if platform == "" || id == "" {
      return None;
    }
    var counted := CountRows(rows, platform, id, since);
    return Some(counted);
  }

  /** The loop over the rows of the query. */
  method CountRows(rows: seq<HistoryRow>, platform: string, id: string, since: int) returns (stats: ChatStats)
    ensures stats == Tally(Matching(rows, platform, id, since))
  {
    hide Trim, BelongsTo, CleanStatus, Matching, Tally;
    stats := ChatStats(map[], ZERO_UNIX);
    EmptyTally(platform, id, since);
    for i := 0 to |rows|
      invariant stats == Tally(Matching(rows[..i], platform, id, since))
    {
      MatchingStep(rows, i, platform, id, since);
      var mine := IsMine(rows[i], platform, id, since);
      if mine {
        TallyStep(Matching(rows[..i], platform, id, since), rows[i]);
        stats := CountRow(stats, rows[i]);
      }
    }
    assert rows[..|rows|] == rows;
  }

  method CountRow(stats: ChatStats, row: HistoryRow) returns (next: ChatStats)
    ensures next == AddRow(stats, row)
  {
    var cleanStatus := Trim(row.status);
    if cleanStatus == "" {
      cleanStatus := "unknown";
    }
    var counts := stats.counts[cleanStatus := CountOf(stats.counts, cleanStatus) + 1];
    var last := stats.lastEventAt;
    if last == ZERO_UNIX || row.createdAt > last {
      last := row.createdAt;
    }
    return ChatStats(counts, last);
  }

  /** The statuses of the rows, blank ones read as unknown. */
  function Statuses(mine: seq<HistoryRow>): (statuses: seq<string>)
    ensures |statuses| == |mine|
    ensures forall i | 0 <= i < |mine| :: statuses[i] == CleanStatus(mine[i])
  {
    seq(|mine|, i requires 0 <= i < |mine| => CleanStatus(mine[i]))
  }

  /** Each status is counted as often as it occurs, and the counts add up to the number of matching rows. */
  lemma {:induction false} CountsAreExact(mine: seq<HistoryRow>)
    ensures var counts := Tally(mine).counts;
            && (forall s :: CountOf(counts, s) == multiset(Statuses(mine))[s])
            && (forall s | s in counts :: counts[s] > 0)
            && Sum(counts) == |mine|
  {
    hide CleanStatus, Sum;
    if mine == [] {
      assert Sum<string>(map[]) == 0 by { EmptySum<string>(); }
    } else {
      var before, row := mine[..|mine| - 1], mine[|mine| - 1];
      CountsAreExact(before);
      assert Statuses(mine) == Statuses(before) + [CleanStatus(row)];
      var counts := Tally(before).counts;
      SumUpdate(counts, CleanStatus(row), CountOf(counts, CleanStatus(row)) + 1);
    }
  }

  /** How many rows have this status, a blank one being unknown. */
  function RowsWith(mine: seq<HistoryRow>, status: string): nat {
    if mine == [] then 0
    else
      var own := Trim(mine[|mine| - 1].status);
      RowsWith(mine[..|mine| - 1], status) + if own == status != "" || (own == "" && status == "unknown") then 1 else 0
  }

  /** Every row counts under its own trimmed status, or under unknown when that is blank. */
  lemma {:induction false} CountedUnderItsStatus(mine: seq<HistoryRow>, status: string)
    ensures CountOf(Tally(mine).counts, status) == RowsWith(mine, status)
  {
    hide Trim;
    if mine != [] {
      CountedUnderItsStatus(mine[..|mine| - 1], status);
    }
  }

  /** The last event is the latest matching row, for every range that starts after the zero time. */
  lemma {:induction false} LastEventIsLatest(mine: seq<HistoryRow>)
    requires forall i | 0 <= i < |mine| :: mine[i].createdAt > ZERO_UNIX
    ensures var last := Tally(mine).lastEventAt;
            && (forall i | 0 <= i < |mine| :: mine[i].createdAt <= last)
            && (if mine == [] then last == ZERO_UNIX else exists i | 0 <= i < |mine| :: mine[i].createdAt == last)
  {
    hide CleanStatus, CountOf;
    if mine != [] {
      var before, row := mine[..|mine| - 1], mine[|mine| - 1];
      LastEventIsLatest(before);
      var last := Tally(before).lastEventAt;
      if Tally(mine).lastEventAt == row.createdAt {
        assert mine[|mine| - 1].createdAt == Tally(mine).lastEventAt;
      } else {
        var k :| 0 <= k < |before| && before[k].createdAt == last;
        assert mine[k].createdAt == last;
      }
    }
  }

  /** A history row belongs to at most one source, so no event is counted twice. */
  lemma OneSourcePerRow(row: HistoryRow, p1: string, i1: string, p2: string, i2: string, since: int)
    requires BelongsTo(row, p1, i1, since) && BelongsTo(row, p2, i2, since)
    ensures p1 == p2 && i1 == i2
  {
  }

  /** A row that a producer or the digest scheduler wrote for a source belongs to exactly that source, and only while it is
      recent. */
  lemma RowsOfASource(row: HistoryRow, since: int, chat: int, message: int, fileId: string, targetId: string,
                      channel: string, discordMessage: string, attachment: string, route: Route, unix: int)
    requires ':' !in channel
    requires ':' !in route.sourcePlatform && ':' !in route.sourceId && TrimRoute(route) == route
    ensures row.eventId == TelegramId(chat, message, fileId, targetId) ==>
              forall p, i :: BelongsTo(row, p, i, since) <==> row.createdAt >= since && p == "telegram" && i == Itoa(chat)
    ensures row.eventId == DiscordId(channel, discordMessage, attachment, targetId) ==>
              forall p, i :: BelongsTo(row, p, i, since) <==> row.createdAt >= since && p == "discord" && i == channel
    ensures row.eventId == DigestId(route, unix) ==>
              forall p, i :: BelongsTo(row, p, i, since) <==>
                row.createdAt >= since && p == route.sourcePlatform && i == route.sourceId
  {
    TelegramSource(chat, message, fileId, targetId);
    DiscordSource(channel, discordMessage, attachment, targetId);
    DigestSource(route, unix);
  }
}
