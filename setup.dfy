/** First-run settings: every default key that is missing from the settings table is
    inserted with its default value; settings already present are left alone. */
module Setup {
  import opened Models

  /** The default table, in the order the setup loop visits it. */
  const DefaultConfigs: seq<(string, string)> := [
    ("setup", "true"),
    ("docker_base_url", "unix://var/run/docker.sock"),
    ("docker_hostname", ""),
    ("container_expiration", "45"),
    ("container_maxmemory", "512"),
    ("container_maxcpu", "0.5"),
    ("docker_assignment", "user"),
    ("compose_version", "3"),
    ("compose_project_prefix", "ctfd"),
    ("compose_networks_default", "ctfd_challenges")
  ]

  function DefaultKeys(d: seq<(string, string)>): set<string> {
    set i | 0 <= i < |d| :: d[i].0
  }

  /** The settings after inserting each pair of `d`, in order, when its key is absent.
      A setting that was present keeps its value. */
  function WithDefaults(m: map<string, string>, d: seq<(string, string)>): (r: map<string, string>)
    ensures forall k :: k in m ==> k in r && r[k] == m[k]
    decreases |d|
  {
    if d == [] then m
    else WithDefaults(if d[0].0 in m then m else m[d[0].0 := d[0].1], d[1..])
  }

  /** Exactly the old keys and the default keys are present afterwards. */
  lemma {:induction false} WithDefaultsKeys(m: map<string, string>, d: seq<(string, string)>)
    ensures WithDefaults(m, d).Keys == m.Keys + DefaultKeys(d)
    decreases |d|
  {
    if d != [] {
      var m' := if d[0].0 in m then m else m[d[0].0 := d[0].1];
      WithDefaultsKeys(m', d[1..]);
      assert DefaultKeys(d) == {d[0].0} + DefaultKeys(d[1..]) by {
        forall k | k in DefaultKeys(d) ensures k in {d[0].0} + DefaultKeys(d[1..]) {
          var i :| 0 <= i < |d| && d[i].0 == k;
          if i > 0 { assert d[1..][i - 1].0 == k; }
        }
      }
    }
  }

  /** A key absent before gets the value of its first entry in the table. */
  lemma {:induction false} WithDefaultsFills(m: map<string, string>, d: seq<(string, string)>, i: nat)
    requires i < |d| && d[i].0 !in m
    requires forall j :: 0 <= j < i ==> d[j].0 != d[i].0
    ensures d[i].0 in WithDefaults(m, d) && WithDefaults(m, d)[d[i].0] == d[i].1
    decreases |d|
  {
    var m' := if d[0].0 in m then m else m[d[0].0 := d[0].1];
    if i == 0 {
      assert d[0].0 in m';
    } else {
      WithDefaultsFills(m', d[1..], i - 1);
    }
  }

  /** Once every default key is present, applying the defaults changes nothing. */
  lemma {:induction false} WithDefaultsNoop(m: map<string, string>, d: seq<(string, string)>)
    requires DefaultKeys(d) <= m.Keys
    ensures WithDefaults(m, d) == m
    decreases |d|
  {
    if d != [] {
      assert d[0].0 in DefaultKeys(d);
      assert DefaultKeys(d[1..]) <= DefaultKeys(d) by {
        forall k | k in DefaultKeys(d[1..]) ensures k in DefaultKeys(d) {
          var i :| 0 <= i < |d[1..]| && d[1..][i].0 == k;
          assert d[i + 1].0 == k;
        }
      }
      WithDefaultsNoop(m, d[1..]);
    }
  }

  /** Running setup twice leaves the settings as running it once. */
  lemma WithDefaultsIdempotent(m: map<string, string>, d: seq<(string, string)>)
    ensures WithDefaults(WithDefaults(m, d), d) == WithDefaults(m, d)
  {
    WithDefaultsKeys(m, d);
    WithDefaultsNoop(WithDefaults(m, d), d);
  }

  /** After setup all ten default keys are present. */
  lemma SetupCoversDefaults(m: map<string, string>)
    ensures forall i :: 0 <= i < |DefaultConfigs| ==> DefaultConfigs[i].0 in WithDefaults(m, DefaultConfigs)
  {
    WithDefaultsKeys(m, DefaultConfigs);
  }

  /** No key of the default table repeats an earlier one. */
  lemma EarlierKeysDiffer(i: nat)
    requires i < |DefaultConfigs|
    ensures forall j :: 0 <= j < i ==> DefaultConfigs[j].0 != DefaultConfigs[i].0
  {
    var lengths := [5, 15, 15, 20, 19, 16, 17, 15, 22, 24];
    assert forall j :: 0 <= j < |DefaultConfigs| ==> |DefaultConfigs[j].0| == lengths[j];
    if i == 2 {
      assert DefaultConfigs[1].0[7] != DefaultConfigs[2].0[7];
    } else if i == 7 {
      assert DefaultConfigs[1].0[0] != DefaultConfigs[7].0[0];
      assert DefaultConfigs[2].0[0] != DefaultConfigs[7].0[0];
    }
  }

  /** On a fresh install the assignment policy is "user". */
  lemma DefaultAssignmentIsUser(m: map<string, string>)
    requires "docker_assignment" !in m
    ensures "docker_assignment" in WithDefaults(m, DefaultConfigs)
    ensures WithDefaults(m, DefaultConfigs)["docker_assignment"] == "user"
  {
    EarlierKeysDiffer(6);
    assert DefaultConfigs[6] == ("docker_assignment", "user");
    WithDefaultsFills(m, DefaultConfigs, 6);
  }

  /** On a fresh install instances expire after 45 minutes. */
  lemma DefaultExpirationIs45(m: map<string, string>)
    requires "container_expiration" !in m
    ensures "container_expiration" in WithDefaults(m, DefaultConfigs)
    ensures WithDefaults(m, DefaultConfigs)["container_expiration"] == "45"
  {
    EarlierKeysDiffer(3);
    assert DefaultConfigs[3] == ("container_expiration", "45");
    WithDefaultsFills(m, DefaultConfigs, 3);
  }

  /** Applying the defaults from position `i` is applying pair `i`, then the rest. */
  lemma WithDefaultsStep(m: map<string, string>, d: seq<(string, string)>, i: nat)
    requires i < |d|
    ensures WithDefaults(m, d[i..]) == WithDefaults(if d[i].0 in m then m else m[d[i].0 := d[i].1], d[i + 1..])
  {
    assert d[i..][1..] == d[i + 1..];
  }

  /** `setup_default_configs`: `apply_default_config` for each default pair in turn. */
  method SetupDefaultConfigs(store: SettingsStore)
    modifies store
    ensures store.values == WithDefaults(old(store.values), DefaultConfigs)
    ensures store.values.Keys == old(store.values).Keys + DefaultKeys(DefaultConfigs)
    ensures forall k :: k in old(store.values) ==> store.values[k] == old(store.values)[k]
  {
    ApplyDefaults(store, DefaultConfigs);
  }

  /** The loop of `setup_default_configs` over a table of defaults `d`. */
  method ApplyDefaults(store: SettingsStore, d: seq<(string, string)>)
    modifies store
    ensures store.values == WithDefaults(old(store.values), d)
    ensures store.values.Keys == old(store.values).Keys + DefaultKeys(d)
    ensures forall k :: k in old(store.values) ==> store.values[k] == old(store.values)[k]
  {
    ghost var initial := store.values;
    var i := 0;
    while i < |d|
      invariant 0 <= i <= |d|
      invariant WithDefaults(store.values, d[i..]) == WithDefaults(initial, d)
    {
      var (key, value) := d[i];
      WithDefaultsStep(store.values, d, i);
      store.ApplyDefaultConfig(key, value);
      i := i + 1;
    }
    WithDefaultsKeys(initial, d);
  }
}
