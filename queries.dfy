/**
 * The collector's read paths over the store: the event query behind the
 * heatmap endpoint, the session listing and the session detail.
 */
module Queries {
  import opened Wrappers
  import opened Text
  import opened Validation
  import opened Store
  import opened Heatmap

  /**
   * `parseTime`: absent or empty text is no bound; text that reads as a number
   * is that timestamp; anything else goes to the date parser, a parameter.
   */
  function ParseTime(value: Option<string>, dateParse: string -> Option<real>): (r: Option<real>)
    ensures value.None? || value.value == "" ==> r.None?
  {
    if value.None? || value.value == "" then None
    else if NumberOf(value.value).Some? && Trim(value.value) != "" then NumberOf(value.value)
    else dateParse(value.value)
  }

  /** Epoch milliseconds written as an integer are read back exactly, without consulting the date parser. */
  lemma ParseTimeNumeric(i: int, dateParse: string -> Option<real>)
    ensures ParseTime(Some(IntToString(i)), dateParse) == Some(i as real)
  {
    IntToStringRoundTrip(i);
    var s := IntToString(i);
    var m: nat := if i < 0 then -i else i;
    NatToStringChars(m);
    if i < 0 {
      assert s[|s| - 1] == NatToString(m)[|NatToString(m)| - 1];
    }
    assert !IsSpace(s[0]) && !IsSpace(s[|s| - 1]);
    TrimNoSpace(s);
  }

  // ---- queryEvents ---------------------------------------------------------------------

  /** The `where` of `queryEvents`; the path filter applies only to a non-empty path. */
  predicate EventMatches(row: EventRow, projectId: string, eventType: string, path: Option<string>, from: real, to: real) {
    && row.projectId == projectId && row.eventType == eventType
    && from <= row.ts <= to
    && (path.None? || path.value == "" || row.path == path.value)
  }

  /** `queryEvents`: the stored rows that match, in storage order. */
  function QueryEvents(rows: seq<EventRow>, projectId: string, eventType: string, path: Option<string>,
                       from: real, to: real): (r: seq<EventRow>)
    ensures |r| <= |rows|
    ensures forall row :: row in r <==> row in rows && EventMatches(row, projectId, eventType, path, from, to)
    decreases |rows|
  {
    if |rows| == 0 then []
    else
      var init := rows[..|rows| - 1];
      var last := rows[|rows| - 1];
      assert rows == init + [last];
      var prefix := QueryEvents(init, projectId, eventType, path, from, to);
      if EventMatches(last, projectId, eventType, path, from, to) then prefix + [last] else prefix
  }

  /** The rows the heatmap endpoint aggregates: type `click`, from 0 and up to now unless the query says otherwise. */
  function HeatmapRows(st: StoreState, projectId: string, q: HeatmapQuery, nowMs: real,
                       dateParse: string -> Option<real>): seq<EventRow>
  {
    QueryEvents(st.events, projectId, q.eventType.GetOr("click"), q.path,
                ParseTime(q.from, dateParse).GetOr(0.0), ParseTime(q.to, dateParse).GetOr(nowMs))
  }

  /** The heatmap endpoint's body; a resolution below 1 is outside the model (`None`). */
  function HeatmapEndpoint(st: StoreState, projectId: string, q: HeatmapQuery, nowMs: real,
                           dateParse: string -> Option<real>): (r: Option<HeatmapResult>)
    ensures r.Some? <==> q.resolution >= 1
    ensures r.Some? ==> r.value.resolution == q.resolution
  {
    if q.resolution < 1 then None
    else Some(HeatmapSpec(HeatmapRows(st, projectId, q, nowMs, dateParse), q.resolution, q.viewportBucket))
  }

  /** With no filters in the query, the heatmap counts exactly the project's clicks from time 0 up to now. */
  lemma HeatmapDefaults(st: StoreState, projectId: string, nowMs: real, dateParse: string -> Option<real>)
    ensures var q := HeatmapQuery(None, None, None, None, 128, None);
            var r := HeatmapEndpoint(st, projectId, q, nowMs, dateParse);
            && r.Some? && r.value.total == |HeatmapRows(st, projectId, q, nowMs, dateParse)|
            && forall row :: row in HeatmapRows(st, projectId, q, nowMs, dateParse) <==>
                 row in st.events && row.projectId == projectId && row.eventType == "click" && 0.0 <= row.ts <= nowMs
  {
  }

  // ---- listSessions ------------------------------------------------------------------------

  datatype SessionSummary = SessionSummary(sessionId: string, userId: Option<string>, startedAt: real,
                                           lastSeenAt: real, firstPath: string, eventCount: nat)

  /** `count(events.id)` over the left join on the session id. */
  function EventCount(rows: seq<EventRow>, sessionId: string): nat
    decreases |rows|
  {
    if |rows| == 0 then 0
    else EventCount(rows[..|rows| - 1], sessionId) + (if rows[|rows| - 1].sessionId == sessionId then 1 else 0)
  }

  /** The `where` of `listSessions`; a bound of 0 is falsy and so ignored, like an absent one. */
  predicate SessionMatches(s: SessionRow, projectId: string, userId: Option<string>, from: Option<real>, to: Option<real>) {
    && s.projectId == projectId
    && (userId.None? || userId.value == "" || s.userId == userId)
    && (from.None? || from.value == 0.0 || s.startedAt >= from.value)
    && (to.None? || to.value == 0.0 || s.lastSeenAt <= to.value)
  }

  /** The matching sessions, in the order they were created. */
  function Candidates(order: seq<string>, sessions: map<string, SessionRow>, projectId: string,
                      userId: Option<string>, from: Option<real>, to: Option<real>): (r: seq<SessionRow>)
    ensures forall k :: 0 <= k < |r| ==> r[k] in sessions.Values && SessionMatches(r[k], projectId, userId, from, to)
    ensures forall i :: 0 <= i < |order| && order[i] in sessions && SessionMatches(sessions[order[i]], projectId, userId, from, to)
                        ==> sessions[order[i]] in r
    decreases |order|
  {
    if |order| == 0 then []
    else
      var init := order[..|order| - 1];
      var id := order[|order| - 1];
      var prefix := Candidates(init, sessions, projectId, userId, from, to);
      assert forall i :: 0 <= i < |init| ==> init[i] == order[i];
      if id in sessions && SessionMatches(sessions[id], projectId, userId, from, to) then prefix + [sessions[id]] else prefix
  }

  /** SQL `LIMIT limit OFFSET offset`. */
  function Page<T>(xs: seq<T>, offset: int, limit: int): (r: seq<T>)
    ensures |r| <= Max(limit, 0)
    ensures var o := Min(Max(offset, 0), |xs|); o + |r| <= |xs| && r == xs[o..o + |r|]
    ensures offset >= 0 && limit >= 0 && offset + limit <= |xs| ==> |r| == limit
    ensures |r| == Min(Max(limit, 0), |xs| - Min(Max(offset, 0), |xs|))
  {
    var rest := xs[Min(Max(offset, 0), |xs|)..];
    assert |rest| == |xs| - Min(Max(offset, 0), |xs|);
    rest[..Min(Max(limit, 0), |rest|)]
  }

  function Summaries(ss: seq<SessionRow>, events: seq<EventRow>): (r: seq<SessionSummary>)
    ensures |r| == |ss|
    ensures forall k :: 0 <= k < |ss| ==> r[k] == SessionSummary(ss[k].id, ss[k].userId, ss[k].startedAt, ss[k].lastSeenAt,
                                                                 ss[k].firstPath, EventCount(events, ss[k].id))
  {
    seq(|ss|, k requires 0 <= k < |ss| =>
      SessionSummary(ss[k].id, ss[k].userId, ss[k].startedAt, ss[k].lastSeenAt, ss[k].firstPath, EventCount(events, ss[k].id)))
  }

  /** `rows.filter((row) => row.firstPath === path)`. */
  function WithFirstPath(rows: seq<SessionSummary>, path: string): (r: seq<SessionSummary>)
    ensures |r| <= |rows|
    ensures forall x :: x in r <==> x in rows && x.firstPath == path
    decreases |rows|
  {
    if |rows| == 0 then []
    else
      var init := rows[..|rows| - 1];
      var last := rows[|rows| - 1];
      assert rows == init + [last];
      var prefix := WithFirstPath(init, path);
      if last.firstPath == path then prefix + [last] else prefix
  }

  /** `listSessions`: filter, page, count each session's events, then filter the page by first path. */
  function ListSessions(st: StoreState, projectId: string, q: SessionsQuery, from: Option<real>, to: Option<real>): seq<SessionSummary> {
    var page := Page(Candidates(st.sessionOrder, st.sessions, projectId, q.userId, from, to), q.offset, q.limit);
    var rows := Summaries(page, st.events);
    if q.path.Some? && q.path.value != "" then WithFirstPath(rows, q.path.value) else rows
  }

  /**
   * Every listed session is one of the project's sessions that passes the filters, with
   * its event count; at most `limit` are listed, and with a path filter only those on
   * the requested page whose first path matches.
   */
  lemma ListSessionsSpec(st: StoreState, projectId: string, q: SessionsQuery, from: Option<real>, to: Option<real>)
    ensures var r := ListSessions(st, projectId, q, from, to);
            var page := Page(Candidates(st.sessionOrder, st.sessions, projectId, q.userId, from, to), q.offset, q.limit);
            && |r| <= Max(q.limit, 0)
            && (forall x :: x in r ==> exists s :: s in page && x.sessionId == s.id && x.firstPath == s.firstPath
                                                     && x.eventCount == EventCount(st.events, s.id))
            && (forall s :: s in page ==> s in st.sessions.Values && SessionMatches(s, projectId, q.userId, from, to))
            && (q.path.Some? && q.path.value != "" ==> forall x :: x in r ==> x.firstPath == q.path.value)
            && (q.path.None? || q.path.value == "" ==>
                  && |r| == |page|
                  && forall k :: 0 <= k < |r| ==>
                       r[k] == SessionSummary(page[k].id, page[k].userId, page[k].startedAt, page[k].lastSeenAt,
                                              page[k].firstPath, EventCount(st.events, page[k].id)))
  {
    var page := Page(Candidates(st.sessionOrder, st.sessions, projectId, q.userId, from, to), q.offset, q.limit);
    var rows := Summaries(page, st.events);
    var r := ListSessions(st, projectId, q, from, to);
    forall x | x in r
      ensures exists s :: s in page && x.sessionId == s.id && x.firstPath == s.firstPath && x.eventCount == EventCount(st.events, s.id)
    {
      assert x in rows;
      var k :| 0 <= k < |rows| && rows[k] == x;
      assert page[k] in page;
    }
  }

  /** The path filter runs after paging: the sessions kept all lie on the unfiltered page. */
  lemma PathFilterAfterPaging(st: StoreState, projectId: string, q: SessionsQuery, from: Option<real>, to: Option<real>)
    requires q.path.Some? && q.path.value != ""
    ensures var unfiltered := ListSessions(st, projectId, q.(path := None), from, to);
            forall x :: x in ListSessions(st, projectId, q, from, to) <==> x in unfiltered && x.firstPath == q.path.value
  {
    var page := Page(Candidates(st.sessionOrder, st.sessions, projectId, q.userId, from, to), q.offset, q.limit);
    var rows := Summaries(page, st.events);
    assert ListSessions(st, projectId, q.(path := None), from, to) == rows;
    assert ListSessions(st, projectId, q, from, to) == WithFirstPath(rows, q.path.value);
  }

  /** A bound of 0, being falsy, lists the same sessions as no bound at all. */
  lemma ZeroBoundsIgnored(st: StoreState, projectId: string, q: SessionsQuery)
    ensures ListSessions(st, projectId, q, Some(0.0), Some(0.0)) == ListSessions(st, projectId, q, None, None)
  {
    assert forall s :: SessionMatches(s, projectId, q.userId, Some(0.0), Some(0.0)) == SessionMatches(s, projectId, q.userId, None, None);
    CandidatesOnlyByFilter(st.sessionOrder, st.sessions, projectId, q.userId, Some(0.0), Some(0.0), None, None);
  }

  /** Two filters that agree on every session select the same candidates. */
  lemma {:induction false} CandidatesOnlyByFilter(order: seq<string>, sessions: map<string, SessionRow>, projectId: string,
                                                  userId: Option<string>, from1: Option<real>, to1: Option<real>,
                                                  from2: Option<real>, to2: Option<real>)
    requires forall s :: SessionMatches(s, projectId, userId, from1, to1) == SessionMatches(s, projectId, userId, from2, to2)
    ensures Candidates(order, sessions, projectId, userId, from1, to1) == Candidates(order, sessions, projectId, userId, from2, to2)
    decreases |order|
  {
    if |order| > 0 {
      CandidatesOnlyByFilter(order[..|order| - 1], sessions, projectId, userId, from1, to1, from2, to2);
    }
  }

  // ---- getSessionDetail ----------------------------------------------------------------------

  /** The session's events, of the requested type when one is given. */
  function SessionEvents(rows: seq<EventRow>, sessionId: string, eventType: Option<string>): (r: seq<EventRow>)
    ensures |r| <= |rows|
    ensures forall row :: row in r <==> row in rows && row.sessionId == sessionId
                                        && (eventType.None? || eventType.value == "" || row.eventType == eventType.value)
    decreases |rows|
  {
    if |rows| == 0 then []
    else
      var init := rows[..|rows| - 1];
      var last := rows[|rows| - 1];
      assert rows == init + [last];
      var prefix := SessionEvents(init, sessionId, eventType);
      if last.sessionId == sessionId && (eventType.None? || eventType.value == "" || last.eventType == eventType.value)
      then prefix + [last] else prefix
  }

  predicate SortedByTs(s: seq<EventRow>) {
    forall i, j :: 0 <= i < j < |s| ==> s[i].ts <= s[j].ts
  }

  /** Insert `x` after every row not later than it. */
  function InsertByTs(s: seq<EventRow>, x: EventRow): seq<EventRow>
    decreases |s|
  {
    if |s| == 0 then [x]
    else if s[|s| - 1].ts <= x.ts then s + [x]
    else InsertByTs(s[..|s| - 1], x) + [s[|s| - 1]]
  }

  /** `orderBy(events.ts)`, as a stable insertion sort (rows with equal times keep storage order). */
  function SortByTs(rows: seq<EventRow>): seq<EventRow>
    decreases |rows|
  {
    if |rows| == 0 then [] else InsertByTs(SortByTs(rows[..|rows| - 1]), rows[|rows| - 1])
  }

  lemma {:induction false} InsertByTsElements(s: seq<EventRow>, x: EventRow)
    ensures multiset(InsertByTs(s, x)) == multiset(s) + multiset{x}
    decreases |s|
  {
    if |s| > 0 && s[|s| - 1].ts > x.ts {
      var init := s[..|s| - 1];
      assert s == init + [s[|s| - 1]];
      InsertByTsElements(init, x);
    }
  }

  /** Appending a row not earlier than any other keeps a sequence sorted. */
  lemma AppendSorted(t: seq<EventRow>, last: EventRow)
    requires SortedByTs(t) && forall y :: y in t ==> y.ts <= last.ts
    ensures SortedByTs(t + [last])
  {
    forall i, j | 0 <= i < j < |t + [last]| ensures (t + [last])[i].ts <= (t + [last])[j].ts {
      if j == |t| {
        assert t[i] in t;
      }
    }
  }

  lemma {:induction false} InsertByTsSorted(s: seq<EventRow>, x: EventRow)
    requires SortedByTs(s)
    ensures SortedByTs(InsertByTs(s, x))
    decreases |s|
  {
    if |s| == 0 {
    } else if s[|s| - 1].ts <= x.ts {
      forall y | y in s ensures y.ts <= x.ts {
        var k :| 0 <= k < |s| && s[k] == y;
      }
      AppendSorted(s, x);
    } else {
      var init := s[..|s| - 1];
      var last := s[|s| - 1];
      assert SortedByTs(init);
      InsertByTsSorted(init, x);
      InsertByTsElements(init, x);
      var t := InsertByTs(init, x);
      forall y | y in t ensures y.ts <= last.ts {
        assert y in multiset(t);
        if y != x {
          assert y in multiset(init);
          var k :| 0 <= k < |init| && init[k] == y;
          assert s[k] == y;
        }
      }
      AppendSorted(t, last);
    }
  }

  /** The sorted rows are in time order and are exactly the input rows. */
  lemma SortByTsSpec(rows: seq<EventRow>)
    ensures SortedByTs(SortByTs(rows))
    ensures multiset(SortByTs(rows)) == multiset(rows)
  {
    SortByTsSorted(rows);
    SortByTsPermutes(rows);
  }

  lemma {:induction false} SortByTsSorted(rows: seq<EventRow>)
    ensures SortedByTs(SortByTs(rows))
    decreases |rows|
  {
    if |rows| > 0 {
      var init := rows[..|rows| - 1];
      SortByTsSorted(init);
      InsertByTsSorted(SortByTs(init), rows[|rows| - 1]);
    }
  }

  lemma {:induction false} SortByTsPermutes(rows: seq<EventRow>)
    ensures multiset(SortByTs(rows)) == multiset(rows)
    decreases |rows|
  {
    if |rows| > 0 {
      var init := rows[..|rows| - 1];
      var last := rows[|rows| - 1];
      SortByTsPermutes(init);
      InsertByTsElements(SortByTs(init), last);
      assert rows == init + [last];
      assert multiset(rows) == multiset(init) + multiset{last};
    }
  }

  datatype SessionDetail = SessionDetail(session: Option<SessionRow>, events: seq<EventRow>)

  /** `getSessionDetail`: an unknown session has no detail and no events. */
  function GetSessionDetail(st: StoreState, sessionId: string, q: SessionEventsQuery): (r: SessionDetail)
    ensures sessionId !in st.sessions ==> r == SessionDetail(None, [])
  {
    if sessionId !in st.sessions then SessionDetail(None, [])
    else SessionDetail(Some(st.sessions[sessionId]),
                       Page(SortByTs(SessionEvents(st.events, sessionId, q.eventType)), q.offset, q.limit))
  }

  /**
   * A known session's detail holds that session and a window of at most `limit` of its
   * events (of the requested type), in time order, taken `offset` rows into the sorted list.
   */
  lemma SessionDetailSpec(st: StoreState, sessionId: string, q: SessionEventsQuery)
    requires sessionId in st.sessions
    ensures var r := GetSessionDetail(st, sessionId, q);
            var all := SortByTs(SessionEvents(st.events, sessionId, q.eventType));
            && r.session == Some(st.sessions[sessionId])
            && |r.events| <= Max(q.limit, 0)
            && SortedByTs(r.events)
            && multiset(all) == multiset(SessionEvents(st.events, sessionId, q.eventType))
            && (forall row :: row in r.events ==>
                  && row in st.events && row.sessionId == sessionId
                  && (q.eventType.None? || q.eventType.value == "" || row.eventType == q.eventType.value))
  {
    var filtered := SessionEvents(st.events, sessionId, q.eventType);
    var all := SortByTs(filtered);
    SortByTsSpec(filtered);
    PageOfSorted(all, q.offset, q.limit);
    var r := GetSessionDetail(st, sessionId, q);
    assert r.events == Page(all, q.offset, q.limit);
    forall row | row in r.events ensures row in filtered {
      assert row in multiset(all);
    }
  }

  /**
   * The window a known session's detail returns: the sorted events from `offset` on, as many
   * as `limit` allows and the list still holds, so a short last page is the whole remainder.
   */
  lemma SessionDetailWindow(st: StoreState, sessionId: string, q: SessionEventsQuery)
    requires sessionId in st.sessions
    ensures var r := GetSessionDetail(st, sessionId, q);
            var all := SortByTs(SessionEvents(st.events, sessionId, q.eventType));
            var o := Min(Max(q.offset, 0), |all|);
            && |r.events| == Min(Max(q.limit, 0), |all| - o)
            && r.events == all[o..o + |r.events|]
  {
    var all := SortByTs(SessionEvents(st.events, sessionId, q.eventType));
    var page := Page(all, q.offset, q.limit);
    var o := Min(Max(q.offset, 0), |all|);
    assert |page| == Min(Max(q.limit, 0), |all| - o) && page == all[o..o + |page|];
    assert GetSessionDetail(st, sessionId, q) == SessionDetail(Some(st.sessions[sessionId]), page);
  }

  /** A page of a time-ordered list is time-ordered and holds only rows of the list. */
  lemma PageOfSorted(all: seq<EventRow>, offset: int, limit: int)
    requires SortedByTs(all)
    ensures SortedByTs(Page(all, offset, limit))
    ensures forall row :: row in Page(all, offset, limit) ==> row in all
  {
    var p := Page(all, offset, limit);
    var o := Min(Max(offset, 0), |all|);
    assert p == all[o..o + |p|];
    forall i, j | 0 <= i < j < |p| ensures p[i].ts <= p[j].ts {
      assert p[i] == all[o + i] && p[j] == all[o + j];
    }
    forall row | row in p ensures row in all {
      var k :| 0 <= k < |p| && p[k] == row;
      assert all[o + k] == row;
    }
  }
}
