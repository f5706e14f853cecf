/**
 * `ConfigValidator`: the rules a configuration dictionary must satisfy, and
 * the repair that fills in missing databases and fields with defaults.
 */
module ConfigValidation {
  import opened Values

  datatype ConfigIssue =
    | MissingDatabase(database: string)
    | MissingHost(database: string)
    | InvalidPort(database: string)
    | PortOutOfRange(database: string, port: int)
    | MissingTestSettings
    | InvalidVectorDimension
    | InvalidTimeout

  const RequiredDatabases: seq<string> := ["milvus", "chroma", "qdrant", "weaviate"]

  // ---------------------------------------------------------------------
  // Validation

  /** `'host' not in c or not c['host']` */
  function HostIssue(database: string, c: Value): (r: Result<seq<ConfigIssue>>)
    ensures r.Ok? ==> r.value == [] || r.value == [MissingHost(database)]
  {
    var has :- Contains(c, "host");
    if !has then Ok([MissingHost(database)])
    else
      var host :- Subscript(c, "host");
      Ok(if Truthy(host) then [] else [MissingHost(database)])
  }

  /** The port rule: present, an `int` (a `bool` is one), in 1..65535. */
  function PortIssue(database: string, c: Value): (r: Result<seq<ConfigIssue>>)
    ensures r.Ok? ==> r.value == [] || r.value == [InvalidPort(database)]
                      || exists p :: r.value == [PortOutOfRange(database, p)] && !(1 <= p <= 65535)
  {
    var has :- Contains(c, "port");
    if !has then Ok([InvalidPort(database)])
    else
      var port :- Subscript(c, "port");
      if !IsInt(port) then Ok([InvalidPort(database)])
      else if !(1 <= IntOf(port) <= 65535) then Ok([PortOutOfRange(database, IntOf(port))])
      else Ok([])
  }

  /** The issues of one required database. */
  function DatabaseIssues(config: Dict, database: string): Result<seq<ConfigIssue>> {
    if database !in Keys(config) then Ok([MissingDatabase(database)])
    else
      var c := Lookup(config, database).value;
      var host :- HostIssue(database, c);
      var port :- PortIssue(database, c);
      Ok(host + port)
  }

  /** A setting that, when present, must be a positive `int`. */
  function SettingIssue(settings: Value, key: string, issue: ConfigIssue): Result<seq<ConfigIssue>> {
    var has :- Contains(settings, key);
    if !has then Ok([])
    else
      var v :- Subscript(settings, key);
      Ok(if !IsInt(v) || IntOf(v) <= 0 then [issue] else [])
  }

  function TestSettingsIssues(config: Dict): Result<seq<ConfigIssue>> {
    if "test_settings" !in Keys(config) then Ok([MissingTestSettings])
    else
      var settings := Lookup(config, "test_settings").value;
      var dimension :- SettingIssue(settings, "vector_dimension", InvalidVectorDimension);
      var timeout :- SettingIssue(settings, "timeout_seconds", InvalidTimeout);
      Ok(dimension + timeout)
  }

  /** The issues of the first `n` required databases. */
  function DatabasesIssues(config: Dict, n: nat): Result<seq<ConfigIssue>>
    requires n <= |RequiredDatabases|
  {
    if n == 0 then Ok([])
    else
      var before :- DatabasesIssues(config, n - 1);
      var more :- DatabaseIssues(config, RequiredDatabases[n - 1]);
      Ok(before + more)
  }

  /** What `validate_config` returns, or the exception it raises on a
      database entry or `test_settings` that is not a dict. */
  function ValidateSpec(config: Dict): Result<seq<ConfigIssue>> {
    var databases :- DatabasesIssues(config, |RequiredDatabases|);
    var settings :- TestSettingsIssues(config);
    Ok(databases + settings)
  }

  lemma {:induction false} DatabasesIssuesErrPersists(config: Dict, k: nat, n: nat)
    requires k <= n <= |RequiredDatabases| && DatabasesIssues(config, k).Err?
    ensures DatabasesIssues(config, n) == DatabasesIssues(config, k)
  {
    if k < n {
      DatabasesIssuesErrPersists(config, k, n - 1);
    }
  }

  /** `validate_config` */
  method ValidateConfig(config: Dict) returns (r: Result<seq<ConfigIssue>>)
    ensures r == ValidateSpec(config)
  {
    var issues: seq<ConfigIssue> := [];
    var i := 0;
    while i < |RequiredDatabases|
      invariant 0 <= i <= |RequiredDatabases|
      invariant DatabasesIssues(config, i) == Ok(issues)
    {
      var database := RequiredDatabases[i];
      if database !in Keys(config) {
        assert DatabasesIssues(config, i + 1) == Ok(issues + [MissingDatabase(database)]);
        issues := issues + [MissingDatabase(database)];
        i := i + 1;
        continue;
      }
      var c := Lookup(config, database).value;
      var host := HostIssue(database, c);
      if host.Err? {
        DatabasesIssuesErrPersists(config, i + 1, |RequiredDatabases|);
        return Err(host.error);
      }
      var port := PortIssue(database, c);
      if port.Err? {
        DatabasesIssuesErrPersists(config, i + 1, |RequiredDatabases|);
        return Err(port.error);
      }
      assert DatabasesIssues(config, i + 1) == Ok(issues + (host.value + port.value));
      issues := issues + (host.value + port.value);
      i := i + 1;
    }
    var settings := TestSettingsIssues(config);
    if settings.Err? {
      return Err(settings.error);
    }
    return Ok(issues + settings.value);
  }

  // ---------------------------------------------------------------------
  // Validation properties

  /** A missing database yields exactly one issue and no host or port issue. */
  lemma MissingDatabaseOnlyIssue(config: Dict, database: string)
    requires database !in Keys(config)
    ensures DatabaseIssues(config, database) == Ok([MissingDatabase(database)])
  {
  }

  /** For a dict entry, a port issue is reported exactly when the port is
      absent, not an `int`, or outside 1..65535. */
  lemma PortIssueIff(config: Dict, database: string)
    requires database in Keys(config) && Lookup(config, database).value.VDict?
    ensures DatabaseIssues(config, database).Ok?
    ensures var d := Lookup(config, database).value.entries;
      (exists k | 0 <= k < |DatabaseIssues(config, database).value| ::
         DatabaseIssues(config, database).value[k].InvalidPort?
         || DatabaseIssues(config, database).value[k].PortOutOfRange?)
      <==> ("port" !in Keys(d) || !IsInt(Lookup(d, "port").value)
            || !(1 <= IntOf(Lookup(d, "port").value) <= 65535))
  {
    var c := Lookup(config, database).value;
    var issues := DatabaseIssues(config, database).value;
    assert issues == HostIssue(database, c).value + PortIssue(database, c).value;
    var port := PortIssue(database, c).value;
    if port != [] {
      assert issues[|issues| - 1] == port[0];
    }
  }

  /** For a dict entry, a host issue is reported exactly when the host is
      absent or falsy. */
  lemma HostIssueIff(config: Dict, database: string)
    requires database in Keys(config) && Lookup(config, database).value.VDict?
    ensures DatabaseIssues(config, database).Ok?
    ensures var d := Lookup(config, database).value.entries;
      (exists k | 0 <= k < |DatabaseIssues(config, database).value| ::
         DatabaseIssues(config, database).value[k].MissingHost?)
      <==> ("host" !in Keys(d) || !Truthy(Lookup(d, "host").value))
  {
    var c := Lookup(config, database).value;
    var issues := DatabaseIssues(config, database).value;
    assert issues == HostIssue(database, c).value + PortIssue(database, c).value;
    if HostIssue(database, c).value != [] {
      assert issues[0].MissingHost?;
    }
  }

  /** Missing `test_settings` yields exactly one settings issue. */
  lemma MissingTestSettingsOnlyIssue(config: Dict)
    requires "test_settings" !in Keys(config)
    ensures TestSettingsIssues(config) == Ok([MissingTestSettings])
  {
  }

  /** A setting is flagged only when present and not a positive `int`. */
  lemma SettingFlaggedIff(settings: Dict, key: string, issue: ConfigIssue)
    ensures SettingIssue(VDict(settings), key, issue).Ok?
    ensures SettingIssue(VDict(settings), key, issue).value != [] <==>
      key in Keys(settings) && (!IsInt(Lookup(settings, key).value) || IntOf(Lookup(settings, key).value) <= 0)
  {
  }

  /** A configuration whose database entries and `test_settings` are dicts
      never makes the validator raise. */
  lemma {:induction false} DictEntriesNeverRaise(config: Dict, n: nat)
    requires n <= |RequiredDatabases|
    requires forall k | 0 <= k < |config| :: config[k].1.VDict?
    ensures DatabasesIssues(config, n).Ok?
  {
    if n > 0 {
      DictEntriesNeverRaise(config, n - 1);
      var database := RequiredDatabases[n - 1];
      if database in Keys(config) {
        var i := KeyIndex(config, database);
        assert config[i].1.VDict?;
      }
    }
  }

  /** The issues of a present database never say it is missing. */
  lemma {:induction false} PresentDatabasesNotMissing(config: Dict, n: nat)
    requires n <= |RequiredDatabases|
    requires forall k | 0 <= k < n :: RequiredDatabases[k] in Keys(config)
    requires DatabasesIssues(config, n).Ok?
    ensures forall k | 0 <= k < |DatabasesIssues(config, n).value| ::
      !DatabasesIssues(config, n).value[k].MissingDatabase? && !DatabasesIssues(config, n).value[k].MissingTestSettings?
  {
    if n > 0 {
      PresentDatabasesNotMissing(config, n - 1);
      var before := DatabasesIssues(config, n - 1).value;
      var more := DatabaseIssues(config, RequiredDatabases[n - 1]).value;
      PresentDatabaseNotMissing(config, RequiredDatabases[n - 1]);
      var all := DatabasesIssues(config, n).value;
      assert all == before + more;
      forall k | 0 <= k < |all| ensures !all[k].MissingDatabase? && !all[k].MissingTestSettings? {
        if k < |before| {
          assert all[k] == before[k];
        } else {
          assert all[k] == more[k - |before|];
        }
      }
    }
  }

  /** A present database entry yields only host and port issues. */
  lemma PresentDatabaseNotMissing(config: Dict, database: string)
    requires database in Keys(config)
    requires DatabaseIssues(config, database).Ok?
    ensures forall k | 0 <= k < |DatabaseIssues(config, database).value| ::
      !DatabaseIssues(config, database).value[k].MissingDatabase?
      && !DatabaseIssues(config, database).value[k].MissingTestSettings?
  {
    var c := Lookup(config, database).value;
    var host := HostIssue(database, c).value;
    var port := PortIssue(database, c).value;
    var all := DatabaseIssues(config, database).value;
    assert all == host + port;
    forall k | 0 <= k < |all| ensures !all[k].MissingDatabase? && !all[k].MissingTestSettings? {
      if k < |host| {
        assert all[k] == host[k];
      } else {
        assert all[k] == port[k - |host|];
      }
    }
  }

  // ---------------------------------------------------------------------
  // Repair

  const DatabaseDefaults: seq<(string, Dict)> := [
    ("milvus", [("host", VStr("localhost")), ("port", VInt(19530)),
                ("database", VStr("default")), ("collection", VStr("test_collection"))]),
    ("chroma", [("host", VStr("localhost")), ("port", VInt(8000)), ("collection", VStr("test_collection"))]),
    ("qdrant", [("host", VStr("localhost")), ("port", VInt(6333)), ("collection", VStr("test_collection"))]),
    ("weaviate", [("host", VStr("localhost")), ("port", VInt(8080)), ("collection", VStr("TestCollection"))])
  ]

  const TestSettingsDefaults: Dict := [
    ("vector_dimension", VInt(128)),
    ("num_collections", VInt(5)),
    ("num_vectors_per_collection", VInt(1000)),
    ("timeout_seconds", VInt(30))
  ]

  /** `d[k] = v` on a dict that holds `k`: the entry keeps its place. */
  function Replace(d: Dict, k: string, v: Value): (r: Dict)
    requires k in Keys(d)
    ensures |r| == |d| && forall i | 0 <= i < |d| :: r[i].0 == d[i].0
    ensures Keys(r) == Keys(d)
  {
    if d[0].0 == k then [(k, v)] + d[1..]
    else
      assert k in Keys(d[1..]) by {
        var j :| 0 <= j < |d| && Keys(d)[j] == k;
        assert Keys(d[1..])[j - 1] == k;
      }
      [d[0]] + Replace(d[1..], k, v)
  }

  /** `for key, value in defaults.items(): if key not in c: c[key] = value`
      on the object `c`; only a dict supports the assignment. */
  function FillSpec(c: Value, defaults: Dict): Result<Value> {
    if defaults == [] then Ok(c)
    else
      var before :- FillSpec(c, defaults[..|defaults| - 1]);
      var (key, value) := defaults[|defaults| - 1];
      var has :- Contains(before, key);
      if has then Ok(before)
      else if before.VDict? then Ok(VDict(before.entries + [(key, value)]))
      else Err(TypeError("object does not support item assignment"))
  }

  /** One step of `fix_common_issues` on `(fixed_config, config_data)`:
      install `defaults` under `key` when it is missing, otherwise fill the
      existing object, which the shallow copy shares with the caller. */
  function FixEntry(state: (Dict, Dict), key: string, defaults: Dict): Result<(Dict, Dict)> {
    var (fixed, caller) := state;
    if key !in Keys(fixed) then Ok((fixed + [(key, VDict(defaults))], caller))
    else
      var filled :- FillSpec(Lookup(fixed, key).value, defaults);
      Ok((Replace(fixed, key, filled), if key in Keys(caller) then Replace(caller, key, filled) else caller))
  }

  /** The repair table: each required database, then `test_settings`, with
      the defaults that fill it. Both loops of the repair take the same step. */
  const RepairDefaults: seq<(string, Dict)> := DatabaseDefaults + [("test_settings", TestSettingsDefaults)]

  /** The state after the first `n` entries of the repair table. */
  function FixSteps(config: Dict, n: nat): Result<(Dict, Dict)>
    requires n <= |RepairDefaults|
  {
    if n == 0 then Ok((config, config))
    else
      var before :- FixSteps(config, n - 1);
      FixEntry(before, RepairDefaults[n - 1].0, RepairDefaults[n - 1].1)
  }

  /** What `fix_common_issues(config)` returns, paired with what the caller's
      `config` holds afterwards, or the exception it raises. */
  function FixSpec(config: Dict): Result<(Dict, Dict)> {
    FixSteps(config, |RepairDefaults|)
  }

  /** The inner loop over a defaults dict. */
  method FillDefaults(c: Value, defaults: Dict) returns (r: Result<Value>)
    ensures r == FillSpec(c, defaults)
  {
    var current := c;
    var i := 0;
    while i < |defaults|
      invariant 0 <= i <= |defaults|
      invariant FillSpec(c, defaults[..i]) == Ok(current)
    {
      assert defaults[..i + 1][..i] == defaults[..i];
      var (key, value) := defaults[i];
      var has := Contains(current, key);
      if has.Err? {
        FillSpecErrPersists(c, defaults, i + 1);
        return Err(has.error);
      }
      if !has.value {
        if !current.VDict? {
          FillSpecErrPersists(c, defaults, i + 1);
          return Err(TypeError("object does not support item assignment"));
        }
        current := VDict(current.entries + [(key, value)]);
      }
      i := i + 1;
    }
    assert defaults[..i] == defaults;
    return Ok(current);
  }

  lemma {:induction false} FillSpecErrPersists(c: Value, defaults: Dict, k: nat)
    requires k <= |defaults| && FillSpec(c, defaults[..k]).Err?
    ensures FillSpec(c, defaults) == FillSpec(c, defaults[..k])
  {
    if k < |defaults| {
      assert defaults[..|defaults| - 1][..k] == defaults[..k];
      FillSpecErrPersists(c, defaults[..|defaults| - 1], k);
    } else {
      assert defaults[..k] == defaults;
    }
  }

  /** `fix_common_issues`: `r` is the repaired configuration and
      `callerAfter` the caller's own dictionary once the nested objects it
      shares with the copy have been filled in. */
  method FixCommonIssues(config: Dict) returns (r: Result<Dict>, callerAfter: Dict)
    ensures FixSpec(config).Ok? ==> r == Ok(FixSpec(config).value.0) && callerAfter == FixSpec(config).value.1
    ensures FixSpec(config).Err? ==> r == Err(FixSpec(config).error)
  {
    var fixed := config;
    callerAfter := config;
    var i := 0;
    while i < |DatabaseDefaults|
      invariant 0 <= i <= |DatabaseDefaults|
      invariant FixSteps(config, i) == Ok((fixed, callerAfter))
    {
      assert RepairDefaults[i] == DatabaseDefaults[i];
      var step := FixEntryStep(fixed, callerAfter, DatabaseDefaults[i].0, DatabaseDefaults[i].1);
      if step.Err? {
        FixStepsErrPersists(config, i + 1, |RepairDefaults|);
        return Err(step.error), callerAfter;
      }
      fixed, callerAfter := step.value.0, step.value.1;
      i := i + 1;
    }
    assert RepairDefaults[i] == ("test_settings", TestSettingsDefaults);
    var last := FixEntryStep(fixed, callerAfter, "test_settings", TestSettingsDefaults);
    if last.Err? {
      return Err(last.error), callerAfter;
    }
    return Ok(last.value.0), last.value.1;
  }

  /** One iteration of the repair, on the copy and on the caller's dict. */
  method FixEntryStep(fixed: Dict, caller: Dict, key: string, defaults: Dict) returns (r: Result<(Dict, Dict)>)
    ensures r == FixEntry((fixed, caller), key, defaults)
  {
    if key !in Keys(fixed) {
      return Ok((fixed + [(key, VDict(defaults))], caller));
    }
    var filled := FillDefaults(Lookup(fixed, key).value, defaults);
    if filled.Err? {
      return Err(filled.error);
    }
    var shared := if key in Keys(caller) then Replace(caller, key, filled.value) else caller;
    return Ok((Replace(fixed, key, filled.value), shared));
  }

  lemma {:induction false} FixStepsErrPersists(config: Dict, k: nat, n: nat)
    requires k <= n <= |RepairDefaults| && FixSteps(config, k).Err?
    ensures FixSteps(config, n) == FixSteps(config, k)
  {
    if k < n {
      FixStepsErrPersists(config, k, n - 1);
    }
  }

  // ---------------------------------------------------------------------
  // Repair properties

  lemma LookupAppend(d: Dict, k: string, v: Value, key: string)
    ensures Lookup(d + [(k, v)], key) == if key in Keys(d) then Lookup(d, key) else if key == k then Some(v) else None
    ensures Keys(d + [(k, v)]) == Keys(d) + [k]
  {
    LookupConcat(d, [(k, v)], key);
    assert Keys([(k, v)]) == [k];
  }

  lemma {:induction false} LookupReplace(d: Dict, k: string, v: Value, key: string)
    requires k in Keys(d)
    ensures Lookup(Replace(d, k, v), key) == if key == k then Some(v) else Lookup(d, key)
  {
    assert Keys(d) == [d[0].0] + Keys(d[1..]);
    var r := Replace(d, k, v);
    assert r[1..] == if d[0].0 == k then d[1..] else Replace(d[1..], k, v);
    if d[0].0 != k {
      LookupReplace(d[1..], k, v, key);
    }
  }

  lemma {:induction false} ReplaceSame(d: Dict, k: string)
    requires k in Keys(d)
    ensures Replace(d, k, Lookup(d, k).value) == d
  {
    assert Keys(d) == [d[0].0] + Keys(d[1..]);
    if d[0].0 != k {
      ReplaceSame(d[1..], k);
    }
  }

  /** Every default key is present after a successful fill. */
  lemma {:induction false} FillSpecHasAllKeys(c: Value, defaults: Dict)
    requires FillSpec(c, defaults).Ok?
    ensures forall i | 0 <= i < |defaults| :: Contains(FillSpec(c, defaults).value, defaults[i].0) == Ok(true)
  {
    if defaults != [] {
      var init := defaults[..|defaults| - 1];
      FillSpecHasAllKeys(c, init);
      var before := FillSpec(c, init).value;
      var (key, value) := defaults[|defaults| - 1];
      var has := Contains(before, key);
      if has == Ok(true) {
        assert FillSpec(c, defaults) == Ok(before);
        forall i | 0 <= i < |defaults|
          ensures Contains(before, defaults[i].0) == Ok(true)
        {
          if i < |init| {
            assert defaults[i] == init[i];
          }
        }
      } else {
        assert before.VDict?;
        var after := before.entries + [(key, value)];
        assert FillSpec(c, defaults) == Ok(VDict(after));
        forall i | 0 <= i < |defaults|
          ensures Contains(VDict(after), defaults[i].0) == Ok(true)
        {
          LookupAppend(before.entries, key, value, defaults[i].0);
          if i < |init| {
            assert defaults[i] == init[i];
          }
        }
      }
    }
  }

  /** Filling an object that already holds every default key changes nothing. */
  lemma {:induction false} FillSpecNoOp(c: Value, defaults: Dict)
    requires forall i | 0 <= i < |defaults| :: Contains(c, defaults[i].0) == Ok(true)
    ensures FillSpec(c, defaults) == Ok(c)
  {
    if defaults != [] {
      FillSpecNoOp(c, defaults[..|defaults| - 1]);
    }
  }

  /** Filling twice is the same as filling once. */
  lemma FillSpecIdempotent(c: Value, defaults: Dict)
    requires FillSpec(c, defaults).Ok?
    ensures FillSpec(FillSpec(c, defaults).value, defaults) == FillSpec(c, defaults)
  {
    FillSpecHasAllKeys(c, defaults);
    FillSpecNoOp(FillSpec(c, defaults).value, defaults);
  }

  /** Filling a dict always succeeds and only appends entries. */
  lemma {:induction false} FillDictExtends(d: Dict, defaults: Dict)
    ensures FillSpec(VDict(d), defaults).Ok? && FillSpec(VDict(d), defaults).value.VDict?
    ensures var e := FillSpec(VDict(d), defaults).value.entries;
      |d| <= |e| && e[..|d|] == d
  {
    if defaults != [] {
      FillDictExtends(d, defaults[..|defaults| - 1]);
    }
  }

  /** One step of filling: the last default is appended exactly when its key
      is missing from the dict filled with the others. */
  lemma FillDictStep(c: Value, defaults: Dict, before: Dict)
    requires defaults != [] && FillSpec(c, defaults[..|defaults| - 1]) == Ok(VDict(before))
    ensures var last := defaults[|defaults| - 1];
      FillSpec(c, defaults)
      == if last.0 in Keys(before) then Ok(VDict(before)) else Ok(VDict(before + [last]))
  {
  }

  /** Filling a dict never overwrites: a key keeps its value when present,
      and gets its default exactly when missing. */
  lemma {:induction false} FillDictNeverOverwrites(d: Dict, defaults: Dict, k: string)
    ensures FillSpec(VDict(d), defaults).Ok? && FillSpec(VDict(d), defaults).value.VDict?
    ensures Lookup(FillSpec(VDict(d), defaults).value.entries, k)
            == if k in Keys(d) then Lookup(d, k) else Lookup(defaults, k)
  {
    FillDictExtends(d, defaults);
    if defaults != [] {
      var init := defaults[..|defaults| - 1];
      var last := defaults[|defaults| - 1];
      FillDictNeverOverwrites(d, init, k);
      var before := FillSpec(VDict(d), init).value.entries;
      FillDictStep(VDict(d), defaults, before);
      var after := FillSpec(VDict(d), defaults).value.entries;
      assert defaults == init + [last];
      LookupAppend(init, last.0, last.1, k);
      var expected := if k in Keys(d) then Lookup(d, k) else Lookup(defaults, k);
      if last.0 in Keys(before) {
        assert after == before;
        assert Lookup(before, k) == expected;
      } else {
        assert after == before + [last];
        LookupAppend(before, last.0, last.1, k);
        assert Lookup(after, k) == expected;
      }
    }
  }

  /** The entry under `key` is one that filling leaves as it is. */
  predicate Settled(config: Dict, key: string, defaults: Dict) {
    key in Keys(config) && FillSpec(Lookup(config, key).value, defaults) == Ok(Lookup(config, key).value)
  }

  /** A repair step settles its own key. */
  lemma FixEntrySettles(state: (Dict, Dict), key: string, defaults: Dict, next: (Dict, Dict))
    requires FixEntry(state, key, defaults) == Ok(next)
    ensures Settled(next.0, key, defaults)
  {
    var fixed0 := state.0;
    if key !in Keys(fixed0) {
      LookupAppend(fixed0, key, VDict(defaults), key);
      assert forall i | 0 <= i < |defaults| :: defaults[i].0 in Keys(defaults);
      FillSpecNoOp(VDict(defaults), defaults);
    } else {
      FillSpecIdempotent(Lookup(fixed0, key).value, defaults);
      LookupReplace(fixed0, key, FillSpec(Lookup(fixed0, key).value, defaults).value, key);
    }
  }

  /** A repair step leaves every other entry of the copy as it was. */
  lemma FixEntryOthers(state: (Dict, Dict), key: string, defaults: Dict, next: (Dict, Dict), k: string)
    requires FixEntry(state, key, defaults) == Ok(next) && k != key
    ensures Lookup(next.0, k) == Lookup(state.0, k)
  {
    if key !in Keys(state.0) {
      LookupAppend(state.0, key, VDict(defaults), k);
    } else {
      LookupReplace(state.0, key, FillSpec(Lookup(state.0, key).value, defaults).value, k);
    }
  }

  /** A repair step keeps the caller's dict keyed as before and, where the
      copy and the caller's dict agreed on `k`, they still agree. */
  lemma FixEntryShares(state: (Dict, Dict), key: string, defaults: Dict, next: (Dict, Dict), config: Dict, k: string)
    requires FixEntry(state, key, defaults) == Ok(next)
    requires Keys(state.1) == Keys(config)
    requires k in Keys(config) ==> k in Keys(state.0) && Lookup(state.1, k) == Lookup(state.0, k)
    ensures Keys(next.1) == Keys(config)
    ensures k in Keys(config) ==> k in Keys(next.0) && Lookup(next.1, k) == Lookup(next.0, k)
  {
    var (fixed0, caller0) := state;
    if key !in Keys(fixed0) {
      LookupAppend(fixed0, key, VDict(defaults), k);
    } else {
      var filled := FillSpec(Lookup(fixed0, key).value, defaults).value;
      LookupReplace(fixed0, key, filled, k);
      if key in Keys(caller0) {
        LookupReplace(caller0, key, filled, k);
      }
    }
  }

  /** The state after `n` entries is one repair step on the state after `n - 1`. */
  lemma FixStepsStep(config: Dict, n: nat, prev: (Dict, Dict))
    requires 0 < n <= |RepairDefaults| && FixSteps(config, n - 1) == Ok(prev)
    ensures FixSteps(config, n) == FixEntry(prev, RepairDefaults[n - 1].0, RepairDefaults[n - 1].1)
  {
  }

  /** No two entries of the repair table share a key. */
  lemma RepairKeysDistinct(i: nat, j: nat)
    requires i < j < |RepairDefaults|
    ensures RepairDefaults[i].0 != RepairDefaults[j].0
  {
  }

  /** After the first `n` entries the copy agrees with the input on every key
      outside them, and the caller's dict, keyed as before, agrees with the
      copy on `k`. */
  lemma {:induction false} FixStepsFrame(config: Dict, n: nat, fixed: (Dict, Dict), k: string)
    requires n <= |RepairDefaults| && FixSteps(config, n) == Ok(fixed)
    ensures (forall j | 0 <= j < n :: RepairDefaults[j].0 != k) ==> Lookup(fixed.0, k) == Lookup(config, k)
    ensures Keys(fixed.1) == Keys(config)
    ensures k in Keys(config) ==> k in Keys(fixed.0) && Lookup(fixed.1, k) == Lookup(fixed.0, k)
  {
    if n > 0 {
      var prev := FixSteps(config, n - 1).value;
      FixStepsFrame(config, n - 1, prev, k);
      FixStepsStep(config, n, prev);
      FixEntryShares(prev, RepairDefaults[n - 1].0, RepairDefaults[n - 1].1, fixed, config, k);
      if RepairDefaults[n - 1].0 != k {
        FixEntryOthers(prev, RepairDefaults[n - 1].0, RepairDefaults[n - 1].1, fixed, k);
      }
    }
  }

  /** After the first `n` entries, each of them is settled. */
  lemma {:induction false} FixStepsSettle(config: Dict, n: nat, j: nat, fixed: (Dict, Dict))
    requires j < n <= |RepairDefaults| && FixSteps(config, n) == Ok(fixed)
    ensures Settled(fixed.0, RepairDefaults[j].0, RepairDefaults[j].1)
  {
    var prev := FixSteps(config, n - 1).value;
    FixStepsStep(config, n, prev);
    if j == n - 1 {
      FixEntrySettles(prev, RepairDefaults[j].0, RepairDefaults[j].1, fixed);
    } else {
      FixStepsSettle(config, n - 1, j, prev);
      RepairKeysDistinct(j, n - 1);
      FixEntryOthers(prev, RepairDefaults[n - 1].0, RepairDefaults[n - 1].1, fixed, RepairDefaults[j].0);
    }
  }

  /** A repair step fills the entry under its own key with the defaults, or
      adds the defaults when the key is missing. */
  lemma FixEntryFills(state: (Dict, Dict), key: string, defaults: Dict, next: (Dict, Dict))
    requires FixEntry(state, key, defaults) == Ok(next)
    ensures key in Keys(state.0) ==>
      FillSpec(Lookup(state.0, key).value, defaults).Ok?
      && Lookup(next.0, key) == Some(FillSpec(Lookup(state.0, key).value, defaults).value)
    ensures key !in Keys(state.0) ==> Lookup(next.0, key) == Some(VDict(defaults))
  {
    if key !in Keys(state.0) {
      LookupAppend(state.0, key, VDict(defaults), key);
    } else {
      LookupReplace(state.0, key, FillSpec(Lookup(state.0, key).value, defaults).value, key);
    }
  }

  /** After the first `n` entries, the entry under each of them is the
      input's own entry filled with its defaults, or the defaults alone when
      the input had none. */
  lemma {:induction false} FixStepsEntry(config: Dict, n: nat, j: nat, fixed: (Dict, Dict))
    requires j < n <= |RepairDefaults| && FixSteps(config, n) == Ok(fixed)
    ensures RepairDefaults[j].0 in Keys(config) ==>
      FillSpec(Lookup(config, RepairDefaults[j].0).value, RepairDefaults[j].1).Ok?
      && Lookup(fixed.0, RepairDefaults[j].0)
         == Some(FillSpec(Lookup(config, RepairDefaults[j].0).value, RepairDefaults[j].1).value)
    ensures RepairDefaults[j].0 !in Keys(config) ==>
      Lookup(fixed.0, RepairDefaults[j].0) == Some(VDict(RepairDefaults[j].1))
  {
    var key, defaults := RepairDefaults[j].0, RepairDefaults[j].1;
    var prev := FixSteps(config, n - 1).value;
    FixStepsStep(config, n, prev);
    if j == n - 1 {
      assert Lookup(prev.0, key) == Lookup(config, key) by {
        forall i | 0 <= i < n - 1 ensures RepairDefaults[i].0 != key {
          RepairKeysDistinct(i, j);
        }
        FixStepsFrame(config, n - 1, prev, key);
      }
      FixEntryFills(prev, key, defaults, fixed);
    } else {
      FixStepsEntry(config, n - 1, j, prev);
      RepairKeysDistinct(j, n - 1);
      FixEntryOthers(prev, RepairDefaults[n - 1].0, RepairDefaults[n - 1].1, fixed, key);
    }
  }

  /** The repaired entry under each key of the repair table is the caller's
      own entry filled with that key's defaults, so by
      `FillDictNeverOverwrites` every value already there is kept; a
      missing entry becomes the defaults. */
  lemma FixSpecEntry(config: Dict, j: nat)
    requires FixSpec(config).Ok? && j < |RepairDefaults|
    ensures RepairDefaults[j].0 in Keys(config) ==>
      FillSpec(Lookup(config, RepairDefaults[j].0).value, RepairDefaults[j].1).Ok?
      && Lookup(FixSpec(config).value.0, RepairDefaults[j].0)
         == Some(FillSpec(Lookup(config, RepairDefaults[j].0).value, RepairDefaults[j].1).value)
    ensures RepairDefaults[j].0 !in Keys(config) ==>
      Lookup(FixSpec(config).value.0, RepairDefaults[j].0) == Some(VDict(RepairDefaults[j].1))
  {
    FixStepsEntry(config, |RepairDefaults|, j, FixSpec(config).value);
  }

  /** The repair keeps existing values: in a dict entry under a key of the
      repair table, every key the caller set keeps its value, and every
      other key gets its default. */
  lemma FixKeepsExistingValues(config: Dict, j: nat, d: Dict, k: string)
    requires FixSpec(config).Ok? && j < |RepairDefaults|
    requires Lookup(config, RepairDefaults[j].0) == Some(VDict(d))
    ensures var entry := Lookup(FixSpec(config).value.0, RepairDefaults[j].0);
      entry.Some? && entry.value.VDict?
      && Lookup(entry.value.entries, k) == if k in Keys(d) then Lookup(d, k) else Lookup(RepairDefaults[j].1, k)
  {
    FixSpecEntry(config, j);
    FillDictNeverOverwrites(d, RepairDefaults[j].1, k);
  }

  /** Outside the repair table the repair changes nothing, and the caller's
      dict, keyed as before, shares the repaired nested objects with the
      returned copy. */
  lemma FixSpecFrame(config: Dict, k: string)
    requires FixSpec(config).Ok?
    ensures k !in RequiredDatabases && k != "test_settings" ==> Lookup(FixSpec(config).value.0, k) == Lookup(config, k)
    ensures Keys(FixSpec(config).value.1) == Keys(config)
    ensures k in Keys(config) ==> Lookup(FixSpec(config).value.1, k) == Lookup(FixSpec(config).value.0, k)
  {
    FixStepsFrame(config, |RepairDefaults|, FixSpec(config).value, k);
    if k !in RequiredDatabases && k != "test_settings" {
      forall j | 0 <= j < |RepairDefaults| ensures RepairDefaults[j].0 != k {
        if j < |DatabaseDefaults| {
          assert RepairDefaults[j].0 == RequiredDatabases[j];
        }
      }
    }
  }

  /** After the repair every entry of the repair table is present and settled. */
  lemma FixSpecSettles(config: Dict, j: nat)
    requires FixSpec(config).Ok? && j < |RepairDefaults|
    ensures Settled(FixSpec(config).value.0, RepairDefaults[j].0, RepairDefaults[j].1)
  {
    FixStepsSettle(config, |RepairDefaults|, j, FixSpec(config).value);
  }

  /** After the repair every key of the repair table is present. */
  lemma FixSpecHasKey(config: Dict, j: nat)
    requires FixSpec(config).Ok? && j < |RepairDefaults|
    ensures RepairDefaults[j].0 in Keys(FixSpec(config).value.0)
  {
    FixSpecSettles(config, j);
  }

  /** A repair step on a settled key changes nothing. */
  lemma FixEntrySettled(fixed: Dict, caller: Dict, key: string, defaults: Dict)
    requires Settled(fixed, key, defaults)
    ensures FixEntry((fixed, caller), key, defaults).Ok?
    ensures FixEntry((fixed, caller), key, defaults).value.0 == fixed
  {
    ReplaceSame(fixed, key);
  }

  lemma {:induction false} FixStepsSettled(config: Dict, n: nat)
    requires n <= |RepairDefaults|
    requires forall j | 0 <= j < |RepairDefaults| :: Settled(config, RepairDefaults[j].0, RepairDefaults[j].1)
    ensures FixSteps(config, n).Ok? && FixSteps(config, n).value.0 == config
  {
    if n > 0 {
      FixStepsSettled(config, n - 1);
      var prev := FixSteps(config, n - 1).value;
      FixStepsStep(config, n, prev);
      FixEntrySettled(prev.0, prev.1, RepairDefaults[n - 1].0, RepairDefaults[n - 1].1);
    }
  }

  /** Repairing a repaired configuration returns it unchanged. */
  lemma FixIdempotent(config: Dict)
    requires FixSpec(config).Ok?
    ensures FixSpec(FixSpec(config).value.0).Ok?
    ensures FixSpec(FixSpec(config).value.0).value.0 == FixSpec(config).value.0
  {
    var fixed := FixSpec(config).value.0;
    forall j | 0 <= j < |RepairDefaults|
      ensures Settled(fixed, RepairDefaults[j].0, RepairDefaults[j].1)
    {
      FixSpecSettles(config, j);
    }
    FixStepsSettled(fixed, |RepairDefaults|);
  }

  /** With `test_settings` present, its issues are about its values only. */
  lemma PresentTestSettingsNotMissing(config: Dict)
    requires "test_settings" in Keys(config) && TestSettingsIssues(config).Ok?
    ensures forall k | 0 <= k < |TestSettingsIssues(config).value| ::
      TestSettingsIssues(config).value[k] in {InvalidVectorDimension, InvalidTimeout}
  {
  }

  /** A configuration holding every required database and `test_settings`
      never draws a missing-database or missing-`test_settings` issue. */
  lemma PresentNothingMissing(config: Dict)
    requires forall j | 0 <= j < |RequiredDatabases| :: RequiredDatabases[j] in Keys(config)
    requires "test_settings" in Keys(config) && ValidateSpec(config).Ok?
    ensures forall k | 0 <= k < |ValidateSpec(config).value| ::
      !ValidateSpec(config).value[k].MissingDatabase? && !ValidateSpec(config).value[k].MissingTestSettings?
  {
    var databases := DatabasesIssues(config, |RequiredDatabases|).value;
    var settings := TestSettingsIssues(config).value;
    var all := ValidateSpec(config).value;
    assert all == databases + settings;
    PresentDatabasesNotMissing(config, |RequiredDatabases|);
    PresentTestSettingsNotMissing(config);
    forall k | 0 <= k < |all| ensures !all[k].MissingDatabase? && !all[k].MissingTestSettings? {
      if k >= |databases| {
        assert all[k] == settings[k - |databases|];
      } else {
        assert all[k] == databases[k];
      }
    }
  }

  /** The repaired configuration never draws a missing-database or
      missing-`test_settings` issue. */
  lemma FixedHasNothingMissing(config: Dict)
    requires FixSpec(config).Ok? && ValidateSpec(FixSpec(config).value.0).Ok?
    ensures forall k | 0 <= k < |ValidateSpec(FixSpec(config).value.0).value| ::
      !ValidateSpec(FixSpec(config).value.0).value[k].MissingDatabase?
      && !ValidateSpec(FixSpec(config).value.0).value[k].MissingTestSettings?
  {
    var fixed := FixSpec(config).value.0;
    forall j | 0 <= j < |RequiredDatabases|
      ensures RequiredDatabases[j] in Keys(fixed)
    {
      FixSpecHasKey(config, j);
      assert RequiredDatabases[j] == RepairDefaults[j].0;
    }
    FixSpecHasKey(config, |DatabaseDefaults|);
    assert RepairDefaults[|DatabaseDefaults|].0 == "test_settings";
    PresentNothingMissing(fixed);
  }
}
