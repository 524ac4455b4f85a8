/**
 * The environment variables given to both functions of a service: seven
 * defaults, overridden and extended by the context's own `environment`
 * setting, then by SLACK_ERROR_URL when the deploying process has it.
 * Python dicts keep insertion order, so a dict is modelled as its items.
 */
module LambdaEnvironment {
  import opened Wrappers
  import opened Settings
  import opened Domain

  /** A `dict` of strings, as its items in insertion order. */
  type Vars = seq<(string, string)>

  function Keys(d: Vars): (keys: seq<string>)
    ensures |keys| == |d| && forall i :: 0 <= i < |d| ==> keys[i] == d[i].0
  {
    seq(|d|, i requires 0 <= i < |d| => d[i].0)
  }

  predicate DistinctKeys(d: Vars)
  {
    forall i, j :: 0 <= i < j < |d| ==> d[i].0 != d[j].0
  }

  /** `d.get(k)`: the value of the last item with key `k` (in a dict, the only one). */
  function Get(d: Vars, k: string): Option<string>
  {
    if |d| == 0 then None
    else if d[|d| - 1].0 == k then Some(d[|d| - 1].1)
    else Get(d[..|d| - 1], k)
  }

  /** Every item with key `k` given the value `v`, in place. */
  function Replace(d: Vars, k: string, v: string): (r: Vars)
    ensures |r| == |d|
  {
    if |d| == 0 then []
    else
      var last := d[|d| - 1];
      Replace(d[..|d| - 1], k, v) + [if last.0 == k then (k, v) else last]
  }

  /** `d[k] = v`: an existing key keeps its position and takes the new value; a new key goes last. */
  function Put(d: Vars, k: string, v: string): Vars
  {
    if Get(d, k).Some? then Replace(d, k, v) else d + [(k, v)]
  }

  /** `d.update(e)`: `d[k] = v` for every item of `e`, in order. */
  function UpdateWith(d: Vars, e: Vars): Vars
  {
    if |e| == 0 then d
    else
      var last := e[|e| - 1];
      Put(UpdateWith(d, e[..|e| - 1]), last.0, last.1)
  }

  lemma {:induction false} GetPresent(d: Vars, k: string)
    ensures Get(d, k).Some? <==> k in Keys(d)
  {
    if |d| > 0 {
      GetPresent(d[..|d| - 1], k);
      assert Keys(d) == Keys(d[..|d| - 1]) + [d[|d| - 1].0];
    }
  }

  lemma {:induction false} ReplaceKeys(d: Vars, k: string, v: string)
    ensures Keys(Replace(d, k, v)) == Keys(d)
  {
    if |d| > 0 {
      ReplaceKeys(d[..|d| - 1], k, v);
      var r := Replace(d, k, v);
      assert r[..|d| - 1] == Replace(d[..|d| - 1], k, v);
      assert Keys(r) == Keys(r[..|d| - 1]) + [r[|d| - 1].0];
      assert Keys(d) == Keys(d[..|d| - 1]) + [d[|d| - 1].0];
    }
  }

  lemma {:induction false} GetReplace(d: Vars, k: string, v: string, q: string)
    ensures Get(Replace(d, k, v), q) == if q != k then Get(d, q) else if Get(d, k).Some? then Some(v) else None
  {
    if |d| > 0 {
      GetReplace(d[..|d| - 1], k, v, q);
      var r := Replace(d, k, v);
      assert r[..|d| - 1] == Replace(d[..|d| - 1], k, v);
    }
  }

  lemma GetAppend(d: Vars, k: string, v: string, q: string)
    ensures Get(d + [(k, v)], q) == if q == k then Some(v) else Get(d, q)
  {
    assert (d + [(k, v)])[..|d|] == d;
  }

  /** Assignment: the key now reads `v`, every other key reads as before. */
  lemma GetPut(d: Vars, k: string, v: string, q: string)
    ensures Get(Put(d, k, v), q) == if q == k then Some(v) else Get(d, q)
  {
    if Get(d, k).Some? {
      GetReplace(d, k, v, q);
    } else {
      GetAppend(d, k, v, q);
    }
  }

  /** Assignment keeps the existing keys where they are and adds a new key last. */
  lemma PutKeys(d: Vars, k: string, v: string)
    ensures Keys(Put(d, k, v)) == if k in Keys(d) then Keys(d) else Keys(d) + [k]
  {
    GetPresent(d, k);
    if Get(d, k).Some? {
      ReplaceKeys(d, k, v);
    } else {
      assert Keys(d + [(k, v)]) == Keys(d) + [k];
    }
  }

  lemma PutDistinct(d: Vars, k: string, v: string)
    requires DistinctKeys(d)
    ensures DistinctKeys(Put(d, k, v))
  {
    PutKeys(d, k, v);
    var r := Put(d, k, v);
    forall i, j | 0 <= i < j < |r| ensures r[i].0 != r[j].0 {
      assert Keys(r)[i] == r[i].0 && Keys(r)[j] == r[j].0;
      if j >= |d| {
        assert Keys(r)[j] == k && k !in Keys(d) && Keys(r)[i] == Keys(d)[i];
      } else {
        assert Keys(r)[i] == Keys(d)[i] && Keys(r)[j] == Keys(d)[j];
      }
    }
  }

  /** `update`: a key of `e` reads its last value in `e`; any other key reads as in `d`. */
  lemma {:induction false} GetUpdateWith(d: Vars, e: Vars, q: string)
    ensures Get(UpdateWith(d, e), q) == if Get(e, q).Some? then Get(e, q) else Get(d, q)
  {
    if |e| > 0 {
      var last := e[|e| - 1];
      GetUpdateWith(d, e[..|e| - 1], q);
      GetPut(UpdateWith(d, e[..|e| - 1]), last.0, last.1, q);
    }
  }

  /** `update` keeps the keys of `d` at their positions and their distinctness. */
  lemma {:induction false} UpdateWithKeys(d: Vars, e: Vars)
    ensures |UpdateWith(d, e)| >= |d| && Keys(UpdateWith(d, e))[..|d|] == Keys(d)
    ensures DistinctKeys(d) ==> DistinctKeys(UpdateWith(d, e))
  {
    if |e| > 0 {
      var last := e[|e| - 1];
      var mid := UpdateWith(d, e[..|e| - 1]);
      UpdateWithKeys(d, e[..|e| - 1]);
      PutKeys(mid, last.0, last.1);
      assert Keys(UpdateWith(d, e))[..|mid|] == Keys(mid);
      assert Keys(UpdateWith(d, e))[..|d|] == Keys(mid)[..|d|];
      if DistinctKeys(d) {
        PutDistinct(mid, last.0, last.1);
      }
    }
  }

  const SlackErrorUrl := "SLACK_ERROR_URL"

  /** The seven defaults, in the order the agent writes them. */
  function Defaults(cfg: Config, context: Context): Vars
  {
    [ ("PROJECT", cfg.project),
      ("FF_ENVIRONMENT", cfg.env),
      ("ACCOUNT_ID", cfg.accountId),
      ("CONTEXT", context.name),
      ("REGION", cfg.region),
      ("BUCKET", cfg.bucket),
      ("DDB_TABLE", cfg.names.ddbTableName(context.name)) ]
  }

  const DefaultKeys: seq<string> := ["PROJECT", "FF_ENVIRONMENT", "ACCOUNT_ID", "CONTEXT", "REGION", "BUCKET", "DDB_TABLE"]

  /**
   * `_lambda_environment`: the defaults, updated with the context's
   * `environment` setting when there is one, then SLACK_ERROR_URL from the
   * process environment when it is set. Each variable reads its
   * highest-priority source; the seven default names keep the first seven
   * positions and no name appears twice.
   */
  method LambdaVariables(cfg: Config, context: Context) returns (vars: Vars)
    ensures forall k :: Get(vars, k) ==
              if k == SlackErrorUrl && cfg.slackErrorUrl.Some? then cfg.slackErrorUrl
              else if context.environment.Some? && Get(context.environment.value, k).Some? then Get(context.environment.value, k)
              else Get(Defaults(cfg, context), k)
    ensures |vars| >= 7 && Keys(vars)[..7] == DefaultKeys
    ensures DistinctKeys(vars)
  {
    var defaults := Defaults(cfg, context);
    assert DistinctKeys(defaults);
    assert Keys(defaults) == DefaultKeys;
    ghost var d0 := defaults;
    if context.environment.Some? {
      UpdateWithKeys(defaults, context.environment.value);
      forall k ensures Get(UpdateWith(d0, context.environment.value), k) ==
                       if Get(context.environment.value, k).Some? then Get(context.environment.value, k) else Get(d0, k) {
        GetUpdateWith(d0, context.environment.value, k);
      }
      defaults := UpdateWith(defaults, context.environment.value);
    }
    ghost var d1 := defaults;
    if cfg.slackErrorUrl.Some? {
      PutKeys(defaults, SlackErrorUrl, cfg.slackErrorUrl.value);
      PutDistinct(defaults, SlackErrorUrl, cfg.slackErrorUrl.value);
      forall k ensures Get(Put(d1, SlackErrorUrl, cfg.slackErrorUrl.value), k) ==
                       if k == SlackErrorUrl then cfg.slackErrorUrl else Get(d1, k) {
        GetPut(d1, SlackErrorUrl, cfg.slackErrorUrl.value, k);
      }
      defaults := Put(defaults, SlackErrorUrl, cfg.slackErrorUrl.value);
      assert Keys(defaults)[..|d1|] == Keys(d1);
      assert Keys(defaults)[..7] == Keys(d1)[..7];
    }
    vars := defaults;
  }
}
