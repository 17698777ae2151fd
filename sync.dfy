/** `main`: validate the configuration read from the environment, fetch
    the warehouses, delete the destination rows whose `id` is at least 0
    and insert the records in batches of 500. The database client is
    represented only by the calls made on it, in order. */
module Sync {
  import opened Json
  import opened Outcomes
  import opened Retry
  import opened Chunking

  /** The five environment settings the script reads at import time. */
  datatype Config = Config(
    token: Option<string>,
    url: Option<string>,
    serviceKey: Option<string>,
    schema: string,
    table: string)

  /** `os.getenv(name)`: None when the variable is unset. */
  function GetEnv(env: map<string, string>, name: string): Option<string>
  {
    if name in env then Some(env[name]) else None
  }

  /** The configuration as the module-level assignments read it. A default
      applies only to an unset variable, never to an empty one. */
  function LoadConfig(env: map<string, string>): (c: Config)
    ensures "WB_SUPPLIES_TOKEN" in env <==> c.token.Some?
    ensures "SUPABASE_URL" in env <==> c.url.Some?
    ensures "SUPABASE_SERVICE_KEY" in env <==> c.serviceKey.Some?
    ensures c.token.Some? ==> c.token.value == env["WB_SUPPLIES_TOKEN"]
    ensures c.url.Some? ==> c.url.value == env["SUPABASE_URL"]
    ensures c.serviceKey.Some? ==> c.serviceKey.value == env["SUPABASE_SERVICE_KEY"]
    ensures c.schema == if "SUPABASE_SCHEMA" in env then env["SUPABASE_SCHEMA"] else "public"
    ensures c.table == if "SUPABASE_TABLE" in env then env["SUPABASE_TABLE"] else "fbw_warehouses"
  {
    Config(
      GetEnv(env, "WB_SUPPLIES_TOKEN"),
      GetEnv(env, "SUPABASE_URL"),
      GetEnv(env, "SUPABASE_SERVICE_KEY"),
      if "SUPABASE_SCHEMA" in env then env["SUPABASE_SCHEMA"] else "public",
      if "SUPABASE_TABLE" in env then env["SUPABASE_TABLE"] else "fbw_warehouses")
  }

  /** Python truthiness of an optional string: set and non-empty. */
  predicate Present(o: Option<string>)
  {
    o.Some? && o.value != ""
  }

  /** The filter of the delete call: rows with `id >= DeleteMinId`. */
  const DeleteMinId: int := 0

  /** Rows per insert call. */
  const BatchSize: nat := 500

  /** The observable steps of a run, in the order they happen. */
  datatype Effect =
    | CreateClient(url: string, key: string)
    | FetchCall(requests: nat, sleeps: seq<nat>)   // `fetch_warehouses`: its requests and waits
    | Delete(schema: string, table: string, minId: int)  // delete the rows whose `id` is at least `minId`
    | Insert(schema: string, table: string, batch: seq<Record>)

  datatype Exit = Completed | Failed(reason: Failure)

  datatype SyncRun = SyncRun(effects: seq<Effect>, exit: Exit)

  /** One insert call per batch, in order. */
  function InsertEffects(schema: string, table: string, batches: seq<seq<Record>>): (r: seq<Effect>)
    ensures |r| == |batches|
  {
    seq(|batches|, k requires 0 <= k < |batches| => Insert(schema, table, batches[k]))
  }

  /** The rows written by the insert calls of a trace, in order. */
  function InsertedRows(effects: seq<Effect>): seq<Record>
  {
    if effects == [] then []
    else (if effects[0].Insert? then effects[0].batch else []) + InsertedRows(effects[1..])
  }

  /** What `main` does for a configuration and the replies the API gives. */
  function SyncSpec(cfg: Config, responses: seq<Response>): SyncRun
  {
    if !Present(cfg.token) then SyncRun([], Failed(TokenEmpty))
    else if !Present(cfg.url) || !Present(cfg.serviceKey) then SyncRun([], Failed(SupabaseConfigEmpty))
    else
      var f := Fetch(responses);
      var start := [CreateClient(cfg.url.value, cfg.serviceKey.value), FetchCall(f.requests, f.sleeps)];
      match f.outcome
      case Fail(reason) => SyncRun(start, Failed(reason))
      case Ok(data) =>
        SyncRun(start + [Delete(cfg.schema, cfg.table, DeleteMinId)]
                  + InsertEffects(cfg.schema, cfg.table, Chunks(data, BatchSize)),
                Completed)
  }

  /** `main` itself. */
  method Sync(cfg: Config, responses: seq<Response>) returns (run: SyncRun)
    ensures run == SyncSpec(cfg, responses)
  {
    if !Present(cfg.token) {
      return SyncRun([], Failed(TokenEmpty));
    }
    if !Present(cfg.url) || !Present(cfg.serviceKey) {
      return SyncRun([], Failed(SupabaseConfigEmpty));
    }
    var effects := [CreateClient(cfg.url.value, cfg.serviceKey.value)];
    var outcome, sleeps, requests := FetchWarehouses(responses);
    effects := effects + [FetchCall(requests, sleeps)];
    if outcome.Fail? {
      return SyncRun(effects, Failed(outcome.reason));
    }
    effects := effects + [Delete(cfg.schema, cfg.table, DeleteMinId)];
    ghost var prefix := effects;
    var batches := Chunked(outcome.records, BatchSize);
    for j := 0 to |batches|
      invariant effects == prefix + InsertEffects(cfg.schema, cfg.table, batches[..j])
    {
      effects := effects + [Insert(cfg.schema, cfg.table, batches[j])];
      assert InsertEffects(cfg.schema, cfg.table, batches[..j + 1])
          == InsertEffects(cfg.schema, cfg.table, batches[..j]) + [Insert(cfg.schema, cfg.table, batches[j])];
    }
    assert batches[..|batches|] == batches;
    run := SyncRun(effects, Completed);
  }

  lemma {:induction false} InsertedRowsAppend(a: seq<Effect>, b: seq<Effect>)
    ensures InsertedRows(a + b) == InsertedRows(a) + InsertedRows(b)
    decreases |a|
  {
    if a == [] {
      assert a + b == b;
    } else {
      assert (a + b)[0] == a[0] && (a + b)[1..] == a[1..] + b;
      InsertedRowsAppend(a[1..], b);
    }
  }

  lemma {:induction false} InsertedRowsOfInserts(schema: string, table: string, batches: seq<seq<Record>>)
    ensures InsertedRows(InsertEffects(schema, table, batches)) == Flatten(batches)
    decreases |batches|
  {
    if batches != [] {
      var e := InsertEffects(schema, table, batches);
      assert e[1..] == InsertEffects(schema, table, batches[1..]);
      InsertedRowsOfInserts(schema, table, batches[1..]);
    }
  }

  lemma {:induction false} NoInsertsNoRows(effects: seq<Effect>)
    requires forall k :: 0 <= k < |effects| ==> !effects[k].Insert?
    ensures InsertedRows(effects) == []
    decreases |effects|
  {
    if effects != [] {
      NoInsertsNoRows(effects[1..]);
    }
  }

  /** A configuration error ends the run before the client is created and
      before any request. */
  lemma ConfigFailsFirst(cfg: Config, responses: seq<Response>)
    requires !Present(cfg.token) || !Present(cfg.url) || !Present(cfg.serviceKey)
    ensures SyncSpec(cfg, responses).effects == []
    ensures SyncSpec(cfg, responses).exit ==
      if !Present(cfg.token) then Failed(TokenEmpty) else Failed(SupabaseConfigEmpty)
  {
  }

  /** A failed fetch ends the run with that failure and leaves the table
      alone: there is no delete and no insert. */
  lemma FetchFailureKeepsTable(cfg: Config, responses: seq<Response>)
    requires Present(cfg.token) && Present(cfg.url) && Present(cfg.serviceKey)
    requires Fetch(responses).outcome.Fail?
    ensures SyncSpec(cfg, responses).exit == Failed(Fetch(responses).outcome.reason)
    ensures forall k :: 0 <= k < |SyncSpec(cfg, responses).effects| ==>
      !SyncSpec(cfg, responses).effects[k].Delete? && !SyncSpec(cfg, responses).effects[k].Insert?
  {
  }

  /** Three 429 replies make the run fail without issuing the delete. */
  lemma RateLimitedKeepsTable(cfg: Config, responses: seq<Response>)
    requires Present(cfg.token) && Present(cfg.url) && Present(cfg.serviceKey)
    requires |responses| >= 3
    requires RateLimited(responses[0]) && RateLimited(responses[1]) && RateLimited(responses[2])
    ensures SyncSpec(cfg, responses).exit == Failed(ApiStatus(429, responses[2].text))
    ensures forall k :: 0 <= k < |SyncSpec(cfg, responses).effects| ==>
      !SyncSpec(cfg, responses).effects[k].Delete?
  {
  }

  /** A successful fetch gives: the client, the fetch, one delete, then
      ceil(n / 500) inserts of non-empty batches of at most 500 rows (all
      but the last exactly 500) that together write the fetched records
      in order. */
  lemma SyncSuccess(cfg: Config, responses: seq<Response>, data: seq<Record>)
    requires Present(cfg.token) && Present(cfg.url) && Present(cfg.serviceKey)
    requires Fetch(responses).outcome == Ok(data)
    ensures var run := SyncSpec(cfg, responses);
      && run.exit == Completed
      && |run.effects| == 3 + (|data| + BatchSize - 1) / BatchSize
      && run.effects[0] == CreateClient(cfg.url.value, cfg.serviceKey.value)
      && run.effects[1].FetchCall?
      && run.effects[2] == Delete(cfg.schema, cfg.table, DeleteMinId)
      && (forall k :: 3 <= k < |run.effects| ==>
            && run.effects[k].Insert?
            && run.effects[k].schema == cfg.schema && run.effects[k].table == cfg.table
            && 0 < |run.effects[k].batch| <= BatchSize)
      && (forall k :: 3 <= k < |run.effects| - 1 ==> |run.effects[k].batch| == BatchSize)
      && InsertedRows(run.effects) == data
  {
    var f := Fetch(responses);
    var start := [CreateClient(cfg.url.value, cfg.serviceKey.value), FetchCall(f.requests, f.sleeps),
                  Delete(cfg.schema, cfg.table, DeleteMinId)];
    assert SyncSpec(cfg, responses)
        == SyncRun(start + InsertEffects(cfg.schema, cfg.table, Chunks(data, BatchSize)), Completed);
    BatchedInserts(start, cfg.schema, cfg.table, data);
  }

  /** The inserts that follow three non-insert steps. */
  lemma BatchedInserts(start: seq<Effect>, schema: string, table: string, data: seq<Record>)
    requires |start| == 3 && forall k :: 0 <= k < 3 ==> !start[k].Insert?
    ensures var effects := start + InsertEffects(schema, table, Chunks(data, BatchSize));
      && |effects| == 3 + (|data| + BatchSize - 1) / BatchSize
      && (forall k :: 3 <= k < |effects| ==>
            && effects[k].Insert?
            && effects[k].schema == schema && effects[k].table == table
            && 0 < |effects[k].batch| <= BatchSize)
      && (forall k :: 3 <= k < |effects| - 1 ==> |effects[k].batch| == BatchSize)
      && InsertedRows(effects) == data
  {
    var batches := Chunks(data, BatchSize);
    var inserts := InsertEffects(schema, table, batches);
    var effects := start + inserts;
    ChunkCount(data, BatchSize);
    ChunkSizes(data, BatchSize);
    FlattenChunks(data, BatchSize);
    InsertedRowsAppend(start, inserts);
    InsertedRowsOfInserts(schema, table, batches);
    NoInsertsNoRows(start);
    forall k | 3 <= k < |effects|
      ensures effects[k] == Insert(schema, table, batches[k - 3])
    {
    }
  }

  /** An empty warehouse list still issues the delete, and inserts nothing. */
  lemma EmptyFetchClearsTable(cfg: Config, responses: seq<Response>)
    requires Present(cfg.token) && Present(cfg.url) && Present(cfg.serviceKey)
    requires Fetch(responses).outcome == Ok([])
    ensures SyncSpec(cfg, responses).exit == Completed
    ensures SyncSpec(cfg, responses).effects ==
      [CreateClient(cfg.url.value, cfg.serviceKey.value),
       FetchCall(Fetch(responses).requests, Fetch(responses).sleeps),
       Delete(cfg.schema, cfg.table, DeleteMinId)]
  {
    var none: seq<Record> := [];
    assert Chunks(none, BatchSize) == [];
  }

  /** Reading the environment, for `main`: a token that is set but empty
      fails exactly like an unset one, before anything else happens. */
  lemma EmptyTokenLikeUnset(env: map<string, string>, responses: seq<Response>)
    requires "WB_SUPPLIES_TOKEN" !in env || env["WB_SUPPLIES_TOKEN"] == ""
    ensures SyncSpec(LoadConfig(env), responses) == SyncRun([], Failed(TokenEmpty))
  {
  }

  /** Reading the environment, for `main`: a database URL or service key
      that is set but empty fails like an unset one. */
  lemma EmptySupabaseLikeUnset(env: map<string, string>, responses: seq<Response>)
    requires "WB_SUPPLIES_TOKEN" in env && env["WB_SUPPLIES_TOKEN"] != ""
    requires "SUPABASE_URL" !in env || env["SUPABASE_URL"] == ""
           || "SUPABASE_SERVICE_KEY" !in env || env["SUPABASE_SERVICE_KEY"] == ""
    ensures SyncSpec(LoadConfig(env), responses) == SyncRun([], Failed(SupabaseConfigEmpty))
  {
  }

  /** The schema and table that the delete and every insert address: the
      variables' values when set, even when empty, and `public` and
      `fbw_warehouses` only when unset. */
  lemma EnvChoosesTarget(env: map<string, string>, responses: seq<Response>, data: seq<Record>)
    requires "WB_SUPPLIES_TOKEN" in env && env["WB_SUPPLIES_TOKEN"] != ""
    requires "SUPABASE_URL" in env && env["SUPABASE_URL"] != ""
    requires "SUPABASE_SERVICE_KEY" in env && env["SUPABASE_SERVICE_KEY"] != ""
    requires Fetch(responses).outcome == Ok(data)
    ensures var run := SyncSpec(LoadConfig(env), responses);
      var schema := if "SUPABASE_SCHEMA" in env then env["SUPABASE_SCHEMA"] else "public";
      var table := if "SUPABASE_TABLE" in env then env["SUPABASE_TABLE"] else "fbw_warehouses";
      && run.effects[0] == CreateClient(env["SUPABASE_URL"], env["SUPABASE_SERVICE_KEY"])
      && run.effects[2] == Delete(schema, table, DeleteMinId)
      && (forall k :: 3 <= k < |run.effects| ==>
            run.effects[k].Insert? && run.effects[k].schema == schema && run.effects[k].table == table)
  {
  }
}
