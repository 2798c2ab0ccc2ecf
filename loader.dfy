/**
  The cluster-resolution loop of `load_config` (worker.py:70-110): each
  cluster named in the configuration document looks up a JSON details list
  in the environment under its own name; usable lists become resolved
  records carrying a freshly generated prefix, and the resolved batch must
  pass `validate_config`.
 */
module Loader {
  import opened Wrappers
  import opened Validation

  /** A decoded JSON value; objects keep their items in order and hold string values. */
  datatype Json = JString(str: string) | JArray(items: seq<Json>) | JObject(members: seq<(string, string)>) | JOther

  /** What `json.loads` makes of an environment variable's text. */
  datatype EnvValue = Decoded(json: Json) | Undecodable

  /** The process environment, each variable already passed through `json.loads`. */
  type Environment = map<string, EnvValue>

  /** The error `load_config` raises: `ValueError("Invalid configuration file.")`. */
  datatype LoadError = InvalidConfiguration

  /** `json.loads(os.getenv(name, '{}'))`: a missing variable reads as the empty object. */
  function Details(env: Environment, name: string): EnvValue {
    if name in env then env[name] else Decoded(JObject([]))
  }

  /** The details a cluster survives with: a list of at least four elements. */
  predicate Usable(d: EnvValue) {
    d.Decoded? && d.json.JArray? && |d.json.items| >= 4
  }

  /** The first four details of a usable list are strings. */
  predicate StringDetails(d: EnvValue) {
    Usable(d) ==>
      var items := d.json.items;
      items[0].JString? && items[1].JString? && items[2].JString? && items[3].JString?
  }

  predicate WellTyped(names: seq<string>, env: Environment) {
    forall i :: 0 <= i < |names| ==> StringDetails(Details(env, names[i]))
  }

  /** `details[4] if len(details) > 4 and isinstance(details[4], dict) else {}`. */
  function EnvOf(items: seq<Json>): seq<(string, string)> {
    if |items| > 4 && items[4].JObject? then items[4].members else []
  }

  /** The record `load_config` appends for one surviving cluster. */
  function MakeCluster(prefix: string, name: string, details: EnvValue): Cluster
    requires Usable(details) && StringDetails(details)
  {
    var items := details.json.items;
    Cluster(map[
      "name" := prefix + " " + name,
      "bot_number" := prefix + " " + items[0].str,
      "git_url" := items[1].str,
      "branch" := items[2].str,
      "run_command" := items[3].str],
      EnvOf(items))
  }

  /** The names of the clusters that survive resolution, in document order. */
  function Survivors(names: seq<string>, env: Environment): seq<string> {
    if names == [] then []
    else (if Usable(Details(env, names[0])) then [names[0]] else []) + Survivors(names[1..], env)
  }

  /** The resolved list: survivors in order, the k-th of them taking the k-th generated prefix. */
  function Resolve(names: seq<string>, env: Environment, prefixes: seq<string>): seq<Cluster>
    requires WellTyped(names, env)
    requires |Survivors(names, env)| <= |prefixes|
  {
    if names == [] then []
    else if Usable(Details(env, names[0])) then
      [MakeCluster(prefixes[0], names[0], Details(env, names[0]))] + Resolve(names[1..], env, prefixes[1..])
    else Resolve(names[1..], env, prefixes)
  }

  /** A cluster survives exactly when it is named and its details are a list of length at least four. */
  lemma {:induction false} SurvivorsMembers(names: seq<string>, env: Environment, n: string)
    ensures n in Survivors(names, env) <==> n in names && Usable(Details(env, n))
  {
    if names != [] {
      SurvivorsMembers(names[1..], env, n);
      assert names == [names[0]] + names[1..];
    }
  }

  /** Survival is decided cluster by cluster. */
  lemma {:induction false} SurvivorsAppend(a: seq<string>, b: seq<string>, env: Environment)
    ensures Survivors(a + b, env) == Survivors(a, env) + Survivors(b, env)
  {
    if a != [] {
      assert (a + b)[1..] == a[1..] + b;
      SurvivorsAppend(a[1..], b, env);
    } else {
      assert a + b == b;
    }
  }

  lemma WellTypedAppend(a: seq<string>, b: seq<string>, env: Environment)
    ensures WellTyped(a + b, env) <==> WellTyped(a, env) && WellTyped(b, env)
  {
    assert forall i :: 0 <= i < |a| ==> (a + b)[i] == a[i];
    assert forall i :: 0 <= i < |b| ==> (a + b)[|a| + i] == b[i];
  }

  /** Every survivor's details are a usable list of strings. */
  lemma SurvivorsUsable(names: seq<string>, env: Environment)
    requires WellTyped(names, env)
    ensures forall k :: 0 <= k < |Survivors(names, env)| ==>
      Usable(Details(env, Survivors(names, env)[k])) && StringDetails(Details(env, Survivors(names, env)[k]))
  {
    var s := Survivors(names, env);
    forall k | 0 <= k < |s| ensures Usable(Details(env, s[k])) && StringDetails(Details(env, s[k])) {
      SurvivorsMembers(names, env, s[k]);
      var i :| 0 <= i < |names| && names[i] == s[k];
    }
  }

  /** The resolved list holds one record per survivor, in order, the k-th built with the k-th prefix. */
  lemma {:induction false} ResolveShape(names: seq<string>, env: Environment, prefixes: seq<string>)
    requires WellTyped(names, env)
    requires |Survivors(names, env)| <= |prefixes|
    ensures |Resolve(names, env, prefixes)| == |Survivors(names, env)|
    ensures forall k :: 0 <= k < |Survivors(names, env)| ==>
      Usable(Details(env, Survivors(names, env)[k])) && StringDetails(Details(env, Survivors(names, env)[k]))
    ensures forall k :: 0 <= k < |Resolve(names, env, prefixes)| ==>
      Resolve(names, env, prefixes)[k] == MakeCluster(prefixes[k], Survivors(names, env)[k], Details(env, Survivors(names, env)[k]))
  {
    SurvivorsUsable(names, env);
    if names != [] {
      var rest, d := names[1..], Details(env, names[0]);
      assert WellTyped(rest, env) by {
        assert forall i :: 0 <= i < |names| - 1 ==> rest[i] == names[i + 1];
      }
      assert StringDetails(d);
      if Usable(d) {
        ResolveShape(rest, env, prefixes[1..]);
        var s, r := Survivors(names, env), Resolve(names, env, prefixes);
        assert s == [names[0]] + Survivors(rest, env);
        assert r == [MakeCluster(prefixes[0], names[0], d)] + Resolve(rest, env, prefixes[1..]);
        forall k | 0 < k < |r|
          ensures r[k] == MakeCluster(prefixes[k], s[k], Details(env, s[k]))
        {
          assert r[k] == Resolve(rest, env, prefixes[1..])[k - 1];
          assert s[k] == Survivors(rest, env)[k - 1];
          assert prefixes[1..][k - 1] == prefixes[k];
        }
      } else {
        ResolveShape(rest, env, prefixes);
        assert Survivors(names, env) == [] + Survivors(rest, env);
        assert [] + Survivors(rest, env) == Survivors(rest, env);
      }
    }
  }

  /**
    Each resolved record, field by field: the k-th survivor with the k-th
    prefix `p` has name `p + " " + cluster name`, bot_number `p + " " +
    details[0]`, git_url, branch and run_command from details[1..3], and env
    from details[4] only when there is a fifth element and it is an object.
   */
  lemma ResolvedFields(names: seq<string>, env: Environment, prefixes: seq<string>, k: nat)
    requires WellTyped(names, env)
    requires |Survivors(names, env)| <= |prefixes|
    requires k < |Survivors(names, env)|
    ensures k < |Resolve(names, env, prefixes)|
    ensures Usable(Details(env, Survivors(names, env)[k])) && StringDetails(Details(env, Survivors(names, env)[k]))
    ensures
      var r := Resolve(names, env, prefixes)[k];
      var n := Survivors(names, env)[k];
      var items := Details(env, n).json.items;
      && HasRequired(r) && "name" in r.fields
      && r.fields["name"] == prefixes[k] + " " + n
      && r.fields["bot_number"] == prefixes[k] + " " + items[0].str
      && r.fields["git_url"] == items[1].str
      && r.fields["branch"] == items[2].str
      && r.fields["run_command"] == items[3].str
      && r.env == (if |items| > 4 && items[4].JObject? then items[4].members else [])
  {
    ResolveShape(names, env, prefixes);
  }

  /** Resolving one more cluster appends its record, if it survives, with the next unused prefix. */
  lemma {:induction false} ResolveSnoc(names: seq<string>, n: string, env: Environment, prefixes: seq<string>)
    requires WellTyped(names, env) && StringDetails(Details(env, n))
    requires |Survivors(names, env)| + (if Usable(Details(env, n)) then 1 else 0) <= |prefixes|
    ensures WellTyped(names + [n], env)
    ensures |Survivors(names + [n], env)| == |Survivors(names, env)| + (if Usable(Details(env, n)) then 1 else 0)
    ensures Resolve(names + [n], env, prefixes) ==
      Resolve(names, env, prefixes) +
      (if Usable(Details(env, n)) then [MakeCluster(prefixes[|Survivors(names, env)|], n, Details(env, n))] else [])
  {
    assert WellTyped([n], env);
    WellTypedAppend(names, [n], env);
    SurvivorsAppend(names, [n], env);
    assert Survivors([n], env) == (if Usable(Details(env, n)) then [n] else []) + Survivors([], env);
    if names != [] {
      assert (names + [n])[1..] == names[1..] + [n];
      assert (names + [n])[0] == names[0];
      WellTypedAppend([names[0]], names[1..], env);
      assert names == [names[0]] + names[1..];
      SurvivorsAppend([names[0]], names[1..], env);
      if Usable(Details(env, names[0])) {
        ResolveSnoc(names[1..], n, env, prefixes[1..]);
      } else {
        ResolveSnoc(names[1..], n, env, prefixes);
      }
    } else {
      assert [] + [n] == [n];
    }
  }

  /**
    Skipping one cluster (missing variable, not a list, too short, or not
    decodable) neither removes nor changes any other record: the result is
    that of the document without it.
   */
  lemma {:induction false} SkipIsolation(a: seq<string>, n: string, b: seq<string>, env: Environment, prefixes: seq<string>)
    requires !Usable(Details(env, n))
    requires WellTyped(a + b, env)
    requires |Survivors(a + b, env)| <= |prefixes|
    ensures WellTyped(a + [n] + b, env) && |Survivors(a + [n] + b, env)| <= |prefixes|
    ensures Resolve(a + [n] + b, env, prefixes) == Resolve(a + b, env, prefixes)
  {
    WellTypedAppend(a, b, env);
    WellTypedAppend(a, [n], env);
    WellTypedAppend(a + [n], b, env);
    SurvivorsAppend(a, b, env);
    SurvivorsAppend(a, [n], env);
    SurvivorsAppend(a + [n], b, env);
    assert Survivors([n], env) == [] + Survivors([], env);
    if a == [] {
      assert a + [n] + b == [n] + b;
      assert ([n] + b)[1..] == b;
      assert a + b == b;
    } else {
      assert (a + [n] + b)[0] == (a + b)[0] == a[0];
      assert (a + [n] + b)[1..] == a[1..] + [n] + b;
      assert (a + b)[1..] == a[1..] + b;
      WellTypedAppend([a[0]], a[1..] + b, env);
      assert a + b == [a[0]] + (a[1..] + b);
      SurvivorsAppend([a[0]], a[1..] + b, env);
      if Usable(Details(env, a[0])) {
        SkipIsolation(a[1..], n, b, env, prefixes[1..]);
      } else {
        SkipIsolation(a[1..], n, b, env, prefixes);
      }
    }
  }

  /**
    `load_config`. A document that could not be read gives the empty list;
    otherwise the result is the resolved list when it validates, and the
    configuration error when it does not.
   */
  method LoadConfig(document: Option<seq<string>>, env: Environment, prefixes: seq<string>)
    returns (r: Result<seq<Cluster>, LoadError>)
    requires document.Some? ==> WellTyped(document.value, env) && |Survivors(document.value, env)| <= |prefixes|
    ensures document.None? ==> r == Success([])
    ensures document.Some? ==>
      r == if ValidConfig(Resolve(document.value, env, prefixes)) then Success(Resolve(document.value, env, prefixes))
           else Failure(InvalidConfiguration)
  {
    if document.None? {
      return Success([]);
    }
    var names := document.value;
    var clusters: seq<Cluster> := [];
    var used := 0;
    for i := 0 to |names|
      invariant WellTyped(names[..i], env)
      invariant used == |Survivors(names[..i], env)| <= |prefixes|
      invariant clusters == Resolve(names[..i], env, prefixes)
    {
      assert names[..i + 1] == names[..i] + [names[i]];
      assert names == names[..i + 1] + names[i + 1..];
      WellTypedAppend(names[..i + 1], names[i + 1..], env);
      SurvivorsAppend(names[..i + 1], names[i + 1..], env);
      SurvivorsAppend(names[..i], [names[i]], env);
      assert Survivors([names[i]], env) == (if Usable(Details(env, names[i])) then [names[i]] else []) + Survivors([], env);
      assert StringDetails(Details(env, names[i])) by {
        assert names[..i + 1][i] == names[i];
      }
      ResolveSnoc(names[..i], names[i], env, prefixes);
      var details := Details(env, names[i]);
      if !Usable(details) {
        continue;
      }
      var prefix := prefixes[used];
      used := used + 1;
      clusters := clusters + [MakeCluster(prefix, names[i], details)];
    }
    assert names[..|names|] == names;
    var verdict := ValidateConfig(clusters);
    if verdict.Fail? {
      return Failure(InvalidConfiguration);
    }
    return Success(clusters);
  }
}
