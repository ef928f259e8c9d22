/**
 * backend/routes/events.js: the events list query, analyst actions on an
 * event, and the presigned-URL guard; plus the `events` table rows the Gmail
 * and Twilio ingestion paths insert.
 *
 * Postgres is not modelled: the list query is modelled up to the SQL text
 * and parameter list handed to the driver, and the table is a map from
 * event id to row.
 */
module Events {
  import opened Wrappers
  import opened Text

  // ---------------------------------------------------------------------------
  // The events table
  // ---------------------------------------------------------------------------

  /** One analyst action: `{actor, action, at}`. */
  datatype Action = Action(actor: string, action: string, at: string)

  /** A row of `events`, with the columns the ingestion paths and the action route write. */
  datatype EventRow = EventRow(
    id: string,
    source: string,
    sourceId: string,
    tenantId: string,
    eventType: string,
    timestamp: string,
    sender: string,
    recipients: seq<string>,
    subject: Option<string>,
    bodyPreview: Option<string>,
    attachmentKeys: seq<string>,
    recordingKey: Option<string>,
    trustScore: real,
    actions: Option<seq<Action>>,
    updatedAt: Option<string>)

  /** `'' || null`: the empty string is stored as NULL. */
  function NullIfEmpty(s: string): (r: Option<string>)
    ensures r.None? <==> s == ""
    ensures r.Some? ==> r.value == s
  {
    if s == "" then None else Some(s)
  }

  /** Whether a row from `source` with this source id is already stored. */
  predicate Recorded(rows: map<string, EventRow>, source: string, sourceId: string) {
    exists id :: id in rows && rows[id].source == source && rows[id].sourceId == sourceId
  }

  datatype ActionOutcome = ActionRequired | EventNotFound | ActionRecorded(action: Action)

  class EventTable {
    /** Rows by event id. */
    var rows: map<string, EventRow>

    /** Every row is stored under its own id. */
    predicate Valid()
      reads this
    {
      forall id :: id in rows ==> rows[id].id == id
    }

    constructor ()
      ensures Valid() && rows == map[]
    {
      rows := map[];
    }

    /** `INSERT INTO events ...` of a row whose id is a fresh UUID. */
    method Insert(row: EventRow)
      requires Valid() && row.id !in rows
      modifies this
      ensures Valid() && rows == old(rows)[row.id := row]
    {
      rows := rows[row.id := row];
    }

    /**
     * POST /events/:id/action: 400 without an action, 404 for an unknown
     * event; otherwise the event's action list (empty when NULL) gains the
     * new action at its end, by "system" unless an actor is given, and the
     * row's update time is set. Nothing else changes.
     */
    method RecordAction(id: string, action: string, actor: string, nowIso: string) returns (r: ActionOutcome)
      requires Valid()
      modifies this
      ensures Valid()
      ensures action == "" ==> r == ActionRequired && rows == old(rows)
      ensures action != "" && id !in old(rows) ==> r == EventNotFound && rows == old(rows)
      ensures action != "" && id in old(rows) ==>
                var before := old(rows)[id];
                && r == ActionRecorded(Action(if actor == "" then "system" else actor, action, nowIso))
                && rows == old(rows)[id := before.(actions := Some(before.actions.GetOr([]) + [r.action]), updatedAt := Some(nowIso))]
    {
      if action == "" {
        return ActionRequired;
      }
      if id !in rows {
        return EventNotFound;
      }
      var currentActions := rows[id].actions.GetOr([]);
      var newAction := Action(if actor == "" then "system" else actor, action, nowIso);
      var updatedActions := currentActions + [newAction];
      rows := rows[id := rows[id].(actions := Some(updatedActions), updatedAt := Some(nowIso))];
      r := ActionRecorded(newAction);
    }
  }

  /** Recording an action keeps the earlier actions, in order, as a prefix of the new list. */
  lemma RecordedActionsExtend(before: EventRow, a: Action, nowIso: string)
    ensures var after := before.(actions := Some(before.actions.GetOr([]) + [a]), updatedAt := Some(nowIso));
            var old_ := before.actions.GetOr([]);
            && |after.actions.value| == |old_| + 1
            && after.actions.value[..|old_|] == old_
            && after.actions.value[|old_|] == a
            && after.id == before.id && after.sourceId == before.sourceId && after.trustScore == before.trustScore
  {
    var old_ := before.actions.GetOr([]);
    assert (old_ + [a])[..|old_|] == old_;
  }

  // ---------------------------------------------------------------------------
  // GET /events: the query text and its parameters
  // ---------------------------------------------------------------------------

  /** What `parseInt` makes of the limit text: a number or NaN. */
  datatype Parsed = Int(n: int) | NaN

  datatype Param = TextParam(s: string) | LimitParam(limit: Parsed)

  /** An optional filter: its SQL text up to the placeholder, and its value. */
  datatype Filter = Filter(clause: string, value: string)

  const BaseQuery: string := "\n                SELECT * FROM events \n                WHERE tenant_id = $1\n            "
  const SinceClause: string := " AND created_at >= $"
  const TypeClause: string := " AND event_type = $"
  const LimitClause: string := " ORDER BY timestamp DESC LIMIT $"

  /** The filters that apply, in the order they are appended: since, then event type. */
  function Filters(since: string, eventType: string): (fs: seq<Filter>)
    ensures |fs| == (if since != "" then 1 else 0) + (if eventType != "" then 1 else 0)
    ensures since != "" ==> fs[0] == Filter(SinceClause, since)
    ensures eventType != "" ==> fs[|fs| - 1] == Filter(TypeClause, eventType)
  {
    (if since != "" then [Filter(SinceClause, since)] else [])
    + (if eventType != "" then [Filter(TypeClause, eventType)] else [])
  }

  function FilterValues(fs: seq<Filter>): (ps: seq<Param>)
    ensures |ps| == |fs|
    ensures forall k :: 0 <= k < |fs| ==> ps[k] == TextParam(fs[k].value)
  {
    if fs == [] then [] else FilterValues(fs[..|fs| - 1]) + [TextParam(fs[|fs| - 1].value)]
  }

  /** The base query followed by the filter clauses, the k-th with placeholder `$(k + 2)`. */
  function QueryUpTo(fs: seq<Filter>): string
    decreases |fs|
  {
    if fs == [] then BaseQuery
    else QueryUpTo(fs[..|fs| - 1]) + fs[|fs| - 1].clause + IntToString(|fs| + 1)
  }

  /** The query for the filters: the tenant is $1, the filters $2.., and the limit the last placeholder. */
  function RenderQuery(fs: seq<Filter>): string {
    QueryUpTo(fs) + LimitClause + IntToString(|fs| + 2)
  }

  /**
   * The query builder of GET /events: each filter appends its clause with
   * placeholder `$paramIndex` and pushes its value, then the LIMIT clause
   * takes the next placeholder and the limit is pushed last.
   */
  method BuildEventsQuery(tenantId: string, since: string, eventType: string, limit: Parsed)
    returns (queryText: string, params: seq<Param>)
    ensures params == [TextParam(tenantId)] + FilterValues(Filters(since, eventType)) + [LimitParam(limit)]
    ensures queryText == RenderQuery(Filters(since, eventType))
  {
    queryText := BaseQuery;
    params := [TextParam(tenantId)];
    var paramIndex := 2;
    ghost var fs: seq<Filter> := [];

    if since != "" {
      AppendFilter(fs, Filter(SinceClause, since));
      queryText := queryText + SinceClause + IntToString(paramIndex);
      params := params + [TextParam(since)];
      paramIndex := paramIndex + 1;
      fs := fs + [Filter(SinceClause, since)];
    }
    assert paramIndex == |fs| + 2 && queryText == QueryUpTo(fs) && params == [TextParam(tenantId)] + FilterValues(fs);

    if eventType != "" {
      AppendFilter(fs, Filter(TypeClause, eventType));
      queryText := queryText + TypeClause + IntToString(paramIndex);
      params := params + [TextParam(eventType)];
      paramIndex := paramIndex + 1;
      fs := fs + [Filter(TypeClause, eventType)];
    }
    assert paramIndex == |fs| + 2 && queryText == QueryUpTo(fs) && params == [TextParam(tenantId)] + FilterValues(fs);
    assert fs == Filters(since, eventType);

    queryText := queryText + LimitClause + IntToString(paramIndex);
    params := params + [LimitParam(limit)];
  }

  /** One step of the builder: a filter appends its clause, numbered after the earlier ones, and its value. */
  lemma AppendFilter(fs: seq<Filter>, f: Filter)
    ensures QueryUpTo(fs + [f]) == QueryUpTo(fs) + f.clause + IntToString(|fs| + 2)
    ensures FilterValues(fs + [f]) == FilterValues(fs) + [TextParam(f.value)]
  {
    assert (fs + [f])[..|fs|] == fs;
  }

  /**
   * The placeholders number the parameters: filter k has placeholder
   * `$(k + 2)` and the (k + 2)-th parameter is its value; the LIMIT
   * placeholder is the number of parameters, and the limit is the last one.
   */
  lemma PlaceholdersNumberParams(tenantId: string, since: string, eventType: string, limit: Parsed)
    ensures var fs := Filters(since, eventType);
            var params := [TextParam(tenantId)] + FilterValues(fs) + [LimitParam(limit)];
            && |params| == |fs| + 2
            && params[0] == TextParam(tenantId)
            && (forall k :: 0 <= k < |fs| ==> params[(k + 2) - 1] == TextParam(fs[k].value))
            && params[|params| - 1] == LimitParam(limit)
  {
    var fs := Filters(since, eventType);
    var vs := FilterValues(fs);
    var params := [TextParam(tenantId)] + vs + [LimitParam(limit)];
    assert |params| == |fs| + 2;
    forall k | 0 <= k < |fs|
      ensures params[(k + 2) - 1] == TextParam(fs[k].value)
    {
      assert params[k + 1] == vs[k];
    }
  }

  /** The since filter comes before the event-type filter, and both before the LIMIT clause. */
  lemma FilterOrder(since: string, eventType: string)
    requires since != "" && eventType != ""
    ensures Filters(since, eventType) == [Filter(SinceClause, since), Filter(TypeClause, eventType)]
    ensures RenderQuery(Filters(since, eventType))
            == BaseQuery + SinceClause + "2" + TypeClause + "3" + LimitClause + "4"
  {
    var fs := Filters(since, eventType);
    assert fs[..1] == [Filter(SinceClause, since)];
    assert fs[..1][..0] == [];
    assert IntToString(2) == "2" && IntToString(3) == "3" && IntToString(4) == "4";
    assert QueryUpTo(fs[..1]) == BaseQuery + SinceClause + "2";
    assert QueryUpTo(fs) == BaseQuery + SinceClause + "2" + TypeClause + "3";
  }

  /** GET /events: limit "25" and tenant "default" unless given; an empty since or type is no filter. */
  method ListEventsQuery(limitText: string, since: string, tenantId: string, eventType: string, parseInt: string -> Parsed)
    returns (queryText: string, params: seq<Param>, limit: Parsed)
    ensures limit == parseInt(if limitText == "" then "25" else limitText)
    ensures var tenant := if tenantId == "" then "default" else tenantId;
            params == [TextParam(tenant)] + FilterValues(Filters(since, eventType)) + [LimitParam(limit)]
            && queryText == RenderQuery(Filters(since, eventType))
  {
    limit := parseInt(if limitText == "" then "25" else limitText);
    var tenant := if tenantId == "" then "default" else tenantId;
    queryText, params := BuildEventsQuery(tenant, since, eventType, limit);
  }

  // ---------------------------------------------------------------------------
  // GET /object/:key
  // ---------------------------------------------------------------------------

  datatype PresignOutcome = PresignRequired | Presign(key: string, expiresIn: nat)

  /** The object route signs only with `presign=true` exactly, and always for 3600 seconds. */
  function ObjectUrl(key: string, presign: Option<string>): (r: PresignOutcome)
    ensures r.Presign? <==> presign == Some("true")
    ensures r.Presign? ==> r.key == key && r.expiresIn == 3600
  {
    if presign == Some("true") then Presign(key, 3600) else PresignRequired
  }
}
