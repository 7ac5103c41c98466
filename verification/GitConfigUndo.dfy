/**
  Snapshot and restore of the Git config that `scope init` touches. A local Git config is a multimap from
  canonical keys to ordered, nonempty lists of values; each `git config` call changes one key. Configuring
  the remote may stop after any of its calls; restoring the snapshot must give back the original config.
 */
module GitConfigUndo {
  import opened Wrappers
  import opened Texts

  type Key = string
  type Value = string
  type Config = map<Key, seq<Value>>

  const NUL: char := '\0'
  const API_URL_KEY: Key := "scope.apiurl"
  const GIT_ORIGIN_KEY: Key := "scope.gitorigin"
  const CREDENTIAL_HELPER: Value := "!scope git-credential"

  /** No key without values, and no value with a NUL in it. */
  predicate Proper(c: Config) {
    forall k :: k in c ==> c[k] != [] && forall i :: 0 <= i < |c[k]| ==> NUL !in c[k][i]
  }

  function Get(c: Config, k: Key): seq<Value> {
    if k in c then c[k] else []
  }

  function HelperKey(url: string): Key {
    "credential." + url + ".helper"
  }

  function UseHttpPathKey(url: string): Key {
    "credential." + url + ".usehttppath"
  }

  function SectionPrefix(remote: string): string {
    "remote." + remote + "."
  }

  predicate InSection(remote: string, k: Key) {
    SectionPrefix(remote) <= k
  }

  function SectionKeys(c: Config, remote: string): set<Key> {
    set k | k in c && InSection(remote, k)
  }

  // ----- `git config --null --get-all`: the value list and its reading

  function Encode(values: seq<Value>): string {
    if values == [] then "" else values[0] + [NUL] + Encode(values[1..])
  }

  function ReadValues(output: string): seq<Value> {
    var pieces := Split(output, NUL);
    if pieces[|pieces| - 1] == "" then pieces[..|pieces| - 1] else pieces
  }

  lemma {:induction false} SplitOfEncoded(values: seq<Value>)
    requires forall i :: 0 <= i < |values| ==> NUL !in values[i]
    ensures Split(Encode(values), NUL) == values + [""]
  {
    if values != [] {
      SplitAfterPiece(values[0], Encode(values[1..]), NUL);
      SplitOfEncoded(values[1..]);
      assert values == [values[0]] + values[1..];
    }
  }

  /** Reading back a printed value list gives the list, empty values included. */
  lemma ReadInvertsEncode(values: seq<Value>)
    requires forall i :: 0 <= i < |values| ==> NUL !in values[i]
    ensures ReadValues(Encode(values)) == values
  {
    SplitOfEncoded(values);
    assert (values + [""])[..|values|] == values;
  }

  // ----- Single changes

  datatype Change = UnsetAll(key: Key) | Add(key: Key, value: Value) | ReplaceAll(key: Key, value: Value)

  function Apply(c: Config, change: Change): Config {
    match change
    case UnsetAll(k) => c - {k}
    case Add(k, v) => c[k := Get(c, k) + [v]]
    case ReplaceAll(k, v) => c[k := [v]]
  }

  function ApplyAll(c: Config, changes: seq<Change>): Config
    decreases |changes|
  {
    if changes == [] then c else ApplyAll(Apply(c, changes[0]), changes[1..])
  }

  function Unsets(keys: seq<Key>): seq<Change> {
    seq(|keys|, i requires 0 <= i < |keys| => UnsetAll(keys[i]))
  }

  datatype Init = Init(remote: string, url: string, apiUrl: string, origin: string)

  /** The changes `configure_remote` makes, in order; `section` are the keys of an existing remote, else empty. */
  function Configuration(init: Init, section: seq<Key>): seq<Change> {
    Unsets(section) + Settings(init)
  }

  function Settings(init: Init): seq<Change> {
    [
      Add(SectionPrefix(init.remote) + "url", init.url),
      Add(SectionPrefix(init.remote) + "fetch", "+refs/heads/*:refs/remotes/" + init.remote + "/*"),
      UnsetAll(HelperKey(init.url)),
      Add(HelperKey(init.url), ""),
      Add(HelperKey(init.url), CREDENTIAL_HELPER),
      ReplaceAll(UseHttpPathKey(init.url), "true"),
      ReplaceAll(API_URL_KEY, init.apiUrl),
      ReplaceAll(GIT_ORIGIN_KEY, init.origin)]
  }

  function FixedKeys(init: Init): seq<Key> {
    [HelperKey(init.url), UseHttpPathKey(init.url), API_URL_KEY, GIT_ORIGIN_KEY]
  }

  /** The keys that configuring a remote may change. */
  predicate InReach(init: Init, k: Key) {
    InSection(init.remote, k) || k in FixedKeys(init)
  }

  /** The snapshot: the value lists of the keys of the section and of the fixed keys. */
  type Snapshot = seq<(Key, seq<Value>)>

  predicate Captures(snapshot: Snapshot, c: Config, init: Init) {
    && (forall i :: 0 <= i < |snapshot| ==> snapshot[i].1 == Get(c, snapshot[i].0) && InReach(init, snapshot[i].0))
    && (forall k :: k in c && InReach(init, k) ==> exists i :: 0 <= i < |snapshot| && snapshot[i].0 == k)
    && (forall k :: k in FixedKeys(init) ==> exists i :: 0 <= i < |snapshot| && snapshot[i].0 == k)
  }

  function ReplaceValues(c: Config, k: Key, values: seq<Value>): Config {
    if values == [] then c - {k} else c[k := values]
  }

  function ReplaceEach(c: Config, snapshot: Snapshot): Config {
    if snapshot == [] then c
    else
      var (k, values) := snapshot[|snapshot| - 1];
      ReplaceValues(ReplaceEach(c, snapshot[..|snapshot| - 1]), k, values)
  }

  function Restored(c: Config, remote: string, snapshot: Snapshot): Config {
    ReplaceEach(c - SectionKeys(c, remote), snapshot)
  }

  // ----- Exact undo

  lemma {:induction false} ChangesStayInReach(c: Config, init: Init, changes: seq<Change>)
    requires forall i :: 0 <= i < |changes| ==> InReach(init, changes[i].key)
    ensures forall k :: !InReach(init, k) ==> Get(ApplyAll(c, changes), k) == Get(c, k)
    ensures forall k :: !InReach(init, k) ==> (k in ApplyAll(c, changes) <==> k in c)
    decreases |changes|
  {
    if changes != [] {
      ChangesStayInReach(Apply(c, changes[0]), init, changes[1..]);
    }
  }

  /** Replacing from a snapshot sets its keys to the original lists and leaves the others. */
  lemma {:induction false} ReplaceEachSets(c: Config, original: Config, snapshot: Snapshot, k: Key)
    requires Proper(original)
    requires forall i :: 0 <= i < |snapshot| ==> snapshot[i].1 == Get(original, snapshot[i].0)
    ensures var named := exists i :: 0 <= i < |snapshot| && snapshot[i].0 == k;
            var result := ReplaceEach(c, snapshot);
            && Get(result, k) == (if named then Get(original, k) else Get(c, k))
            && (k in result <==> if named then k in original else k in c)
  {
    if snapshot != [] {
      var front := snapshot[..|snapshot| - 1];
      ReplaceEachSets(c, original, front, k);
      if exists i :: 0 <= i < |front| && front[i].0 == k {
        var i :| 0 <= i < |front| && front[i].0 == k;
        assert snapshot[i].0 == k;
      }
      if exists i :: 0 <= i < |snapshot| && snapshot[i].0 == k {
        var i :| 0 <= i < |snapshot| && snapshot[i].0 == k;
        assert i < |front| ==> front[i].0 == k;
      }
    }
  }

  lemma ConfigurationInReach(init: Init, section: seq<Key>, n: nat)
    requires forall i :: 0 <= i < |section| ==> InSection(init.remote, section[i])
    requires n <= |Configuration(init, section)|
    ensures forall i :: 0 <= i < n ==> InReach(init, Configuration(init, section)[..n][i].key)
  {
  }

  /**
    Exact undo: capture, then the first n changes of `configure_remote`, then restore, gives back the
    original config, whatever it was and wherever the configuration stopped.
   */
  lemma ExactUndo(c: Config, init: Init, snapshot: Snapshot, section: seq<Key>, n: nat)
    requires Proper(c) && Captures(snapshot, c, init)
    requires forall i :: 0 <= i < |section| ==> InSection(init.remote, section[i])
    requires n <= |Configuration(init, section)|
    ensures Restored(ApplyAll(c, Configuration(init, section)[..n]), init.remote, snapshot) == c
  {
    var changed := ApplyAll(c, Configuration(init, section)[..n]);
    var restored := Restored(changed, init.remote, snapshot);
    ConfigurationInReach(init, section, n);
    ChangesStayInReach(c, init, Configuration(init, section)[..n]);
    var cleared := changed - SectionKeys(changed, init.remote);
    forall k ensures (k in restored <==> k in c) && Get(restored, k) == Get(c, k) {
      ReplaceEachSets(cleared, c, snapshot, k);
    }
    assert forall k :: k in c ==> restored[k] == Get(restored, k) == c[k];
    assert restored.Keys == c.Keys;
  }

  // ----- The same as the source runs it

  class LocalConfig {
    var values: Config

    ghost predicate Valid()
      reads this
    {
      Proper(values)
    }

    constructor (c: Config)
      requires Proper(c)
      ensures Valid() && values == c
    {
      values := c;
    }

    /** `remote_section_keys`, in some order. */
    method RemoteSectionKeys(remote: string) returns (keys: seq<Key>)
      ensures forall i :: 0 <= i < |keys| ==> InSection(remote, keys[i])
      ensures forall k :: k in keys <==> k in SectionKeys(values, remote)
    {
      keys := [];
      var left := SectionKeys(values, remote);
      while left != {}
        invariant left <= SectionKeys(values, remote)
        invariant forall k :: k in keys <==> k in SectionKeys(values, remote) - left
        invariant forall i :: 0 <= i < |keys| ==> keys[i] in SectionKeys(values, remote)
        decreases left
      {
        var k :| k in left;
        keys, left := keys + [k], left - {k};
      }
    }

    /** `local_config_values`: ask Git for the list and read its output. */
    method LocalConfigValues(k: Key) returns (list: seq<Value>)
      requires Valid()
      ensures list == Get(values, k)
    {
      if k !in values {
        return [];
      }
      ReadInvertsEncode(values[k]);
      var pieces := Split(Encode(values[k]), NUL);
      if pieces[|pieces| - 1] == "" {
        pieces := pieces[..|pieces| - 1];
      }
      list := pieces;
    }

    /** `RemoteConfigSnapshot::capture`. */
    method Capture(init: Init) returns (snapshot: Snapshot)
      requires Valid()
      ensures Captures(snapshot, values, init)
    {
      var section := RemoteSectionKeys(init.remote);
      var keys := section + FixedKeys(init);
      snapshot := [];
      for i := 0 to |keys|
        invariant |snapshot| == i
        invariant forall j :: 0 <= j < i ==> snapshot[j] == (keys[j], Get(values, keys[j]))
      {
        var list := LocalConfigValues(keys[i]);
        snapshot := snapshot + [(keys[i], list)];
      }
      forall k | k in keys ensures exists i :: 0 <= i < |snapshot| && snapshot[i].0 == k {
        var i :| 0 <= i < |keys| && keys[i] == k;
        assert snapshot[i].0 == k;
      }
      forall k | k in FixedKeys(init) || (k in values && InSection(init.remote, k)) ensures k in keys {
        if k in FixedKeys(init) {
          assert exists i :: 0 <= i < |FixedKeys(init)| && FixedKeys(init)[i] == k == keys[|section| + i];
        }
      }
    }

    /** `replace_local_config_values`: clear the key, then add the values one by one. */
    method ReplaceLocalValues(k: Key, list: seq<Value>)
      modifies this
      ensures values == ReplaceValues(old(values), k, list)
    {
      values := values - {k};
      for i := 0 to |list|
        invariant values == ReplaceValues(old(values), k, list[..i])
      {
        values := values[k := Get(values, k) + [list[i]]];
        assert list[..i] + [list[i]] == list[..i + 1];
      }
      assert list[..|list|] == list;
    }

    /** `RemoteConfigSnapshot::restore`. */
    method Restore(remote: string, snapshot: Snapshot)
      modifies this
      ensures values == Restored(old(values), remote, snapshot)
    {
      var keys := RemoteSectionKeys(remote);
      for i := 0 to |keys|
        invariant values == old(values) - (set j | 0 <= j < i :: keys[j])
      {
        values := values - {keys[i]};
      }
      assert (set j | 0 <= j < |keys| :: keys[j]) == SectionKeys(old(values), remote);
      ghost var cleared := values;
      for i := 0 to |snapshot|
        invariant values == ReplaceEach(cleared, snapshot[..i])
      {
        ReplaceLocalValues(snapshot[i].0, snapshot[i].1);
        assert snapshot[..i + 1][..i] == snapshot[..i];
      }
      assert snapshot[..|snapshot|] == snapshot;
    }

    /** `configure_remote`, stopped by a failing Git call after at most `budget` changes. */
    method ConfigureRemote(init: Init, exists_: bool, budget: nat) returns (section: seq<Key>, done: nat)
      modifies this
      ensures forall i :: 0 <= i < |section| ==> InSection(init.remote, section[i])
      ensures forall k :: k in section <==> exists_ && k in SectionKeys(old(values), init.remote)
      ensures done == Min(budget, |Configuration(init, section)|)
      ensures values == ApplyAll(old(values), Configuration(init, section)[..done])
    {
      section := [];
      if exists_ {
        section := RemoteSectionKeys(init.remote);
      }
      var changes := Configuration(init, section);
      done := 0;
      while done < budget && done < |changes|
        invariant 0 <= done <= budget && done <= |changes|
        invariant values == ApplyAll(old(values), changes[..done])
      {
        ApplyOneMore(old(values), changes[..done], changes[done]);
        assert changes[..done] + [changes[done]] == changes[..done + 1];
        values := Apply(values, changes[done]);
        done := done + 1;
      }
    }

    /** The failure path of `scope init`: capture, configure until a call fails, restore. */
    method ConfigureAndUndo(init: Init, exists_: bool, budget: nat)
      requires Valid()
      modifies this
      ensures values == old(values)
    {
      var snapshot := Capture(init);
      var section, done := ConfigureRemote(init, exists_, budget);
      ExactUndo(old(values), init, snapshot, section, done);
      Restore(init.remote, snapshot);
    }
  }

  // ----- Whose keys are in a section

  /** A remote's section takes in the keys of another remote exactly when the other's name extends it by a dot. */
  lemma SectionTakesInIff(remote: string, other: string, variable: string)
    requires '.' !in variable
    ensures InSection(remote, SectionPrefix(other) + variable) <==> other == remote || remote + "." <= other
  {
    var k, rest := SectionPrefix(other) + variable, other + "." + variable;
    assert k == "remote." + rest && SectionPrefix(remote) == "remote." + (remote + ".");
    assert rest == k[|"remote."|..] && remote + "." == SectionPrefix(remote)[|"remote."|..];
    if InSection(remote, k) {
      assert remote + "." <= rest;
      assert rest[|remote|] == '.';
      assert forall i :: |other| < i < |rest| ==> rest[i] == variable[i - |other| - 1] != '.';
      assert rest[..|remote|] == remote;
      if |remote| < |other| {
        assert rest[..|remote| + 1] == other[..|remote| + 1];
      }
    }
  }

  /** A key that is only ever unset, at least once if it was there, is gone. */
  lemma {:induction false} UnsetIsGone(c: Config, changes: seq<Change>, k: Key)
    requires k in c ==> exists i :: 0 <= i < |changes| && changes[i].key == k
    requires forall i :: 0 <= i < |changes| && changes[i].key == k ==> changes[i].UnsetAll?
    ensures k !in ApplyAll(c, changes)
    decreases |changes|
  {
    if changes != [] {
      var next := Apply(c, changes[0]);
      if k in next {
        var i :| 0 <= i < |changes| && changes[i].key == k;
        assert i != 0 && changes[1..][i - 1].key == k;
      }
      UnsetIsGone(next, changes[1..], k);
    }
  }

  lemma {:induction false} UntouchedStays(c: Config, changes: seq<Change>, k: Key)
    requires k in c && forall i :: 0 <= i < |changes| ==> changes[i].key != k
    ensures k in ApplyAll(c, changes) && ApplyAll(c, changes)[k] == c[k]
    decreases |changes|
  {
    if changes != [] {
      UntouchedStays(Apply(c, changes[0]), changes[1..], k);
    }
  }

  /** The keys set by a configuration are not another remote's. */
  lemma SettingsAreOwn(init: Init, section: seq<Key>, other: string, variable: string, i: nat)
    requires '.' !in variable && other != init.remote && i < |Configuration(init, section)|
    requires Configuration(init, section)[i].key == SectionPrefix(other) + variable
    ensures i < |section| && Configuration(init, section)[i] == UnsetAll(section[i])
  {
    var k, change := SectionPrefix(other) + variable, Configuration(init, section)[i];
    if i >= |section| {
      assert k[0] == 'r' && HelperKey(init.url)[0] == 'c' && UseHttpPathKey(init.url)[0] == 'c';
      SameSection(init.remote, "url", other, variable);
      SameSection(init.remote, "fetch", other, variable);
    }
  }

  lemma SameSection(remote: string, v: string, other: string, v': string)
    requires '.' !in v && '.' !in v'
    ensures SectionPrefix(remote) + v == SectionPrefix(other) + v' ==> remote == other
  {
    SectionTakesInIff(remote, other, v');
    SectionTakesInIff(other, remote, v);
    assert InSection(remote, SectionPrefix(remote) + v) && InSection(other, SectionPrefix(other) + v');
  }

  /**
    What a whole configuration does to another remote: its keys survive exactly when the configured remote is
    new or its name, with a dot, does not begin the other's.
   */
  lemma OtherRemoteSurvivesIff(c: Config, init: Init, exists_: bool, section: seq<Key>, other: string, variable: string)
    requires forall k :: k in section <==> exists_ && k in SectionKeys(c, init.remote)
    requires '.' !in variable && other != init.remote && SectionPrefix(other) + variable in c
    ensures var k, after := SectionPrefix(other) + variable, ApplyAll(c, Configuration(init, section));
            && (k in after <==> !(exists_ && init.remote + "." <= other))
            && (k in after ==> after[k] == c[k])
  {
    var k, changes := SectionPrefix(other) + variable, Configuration(init, section);
    SectionTakesInIff(init.remote, other, variable);
    forall i | 0 <= i < |changes| && changes[i].key == k ensures changes[i].UnsetAll? && k in section {
      SettingsAreOwn(init, section, other, variable, i);
    }
    if exists_ && init.remote + "." <= other {
      assert k in SectionKeys(c, init.remote) && k in section;
      var i :| 0 <= i < |section| && section[i] == k;
      assert changes[i].key == k;
      UnsetIsGone(c, changes, k);
    } else {
      UntouchedStays(c, changes, k);
    }
  }

  // ----- What a whole configuration leaves

  lemma {:induction false} ApplyInTwo(c: Config, changes: seq<Change>, more: seq<Change>)
    ensures ApplyAll(c, changes + more) == ApplyAll(ApplyAll(c, changes), more)
    decreases |changes|
  {
    if changes == [] {
      assert changes + more == more;
    } else {
      ApplyInTwo(Apply(c, changes[0]), changes[1..], more);
      assert (changes + more)[1..] == changes[1..] + more;
    }
  }

  lemma ApplyNext(c: Config, changes: seq<Change>, i: nat)
    requires i < |changes|
    ensures ApplyAll(c, changes[..i + 1]) == Apply(ApplyAll(c, changes[..i]), changes[i])
  {
    ApplyOneMore(c, changes[..i], changes[i]);
    assert changes[..i] + [changes[i]] == changes[..i + 1];
  }

  function UrlKey(remote: string): Key {
    SectionPrefix(remote) + "url"
  }

  function FetchKey(remote: string): Key {
    SectionPrefix(remote) + "fetch"
  }

  lemma KeysDiffer(init: Init)
    ensures var u, f, h, p := UrlKey(init.remote), FetchKey(init.remote), HelperKey(init.url), UseHttpPathKey(init.url);
            && u != f && u != h && u != p && f != h && f != p && h != p
            && u != API_URL_KEY && f != API_URL_KEY && h != API_URL_KEY && p != API_URL_KEY
            && u != GIT_ORIGIN_KEY && f != GIT_ORIGIN_KEY && h != GIT_ORIGIN_KEY && p != GIT_ORIGIN_KEY
    ensures API_URL_KEY != GIT_ORIGIN_KEY
  {
    assert HelperKey(init.url)[0] == 'c' && UseHttpPathKey(init.url)[0] == 'c';
    assert API_URL_KEY[0] == 's' && GIT_ORIGIN_KEY[0] == 's';
    assert UrlKey(init.remote)[0] == 'r' && FetchKey(init.remote)[0] == 'r';
    assert |UrlKey(init.remote)| < |FetchKey(init.remote)| && |HelperKey(init.url)| < |UseHttpPathKey(init.url)|;
    assert |API_URL_KEY| < |GIT_ORIGIN_KEY|;
  }

  /** The remote is added to what is there, fetches all branches, and Git asks Scope for credentials at its address. */
  ghost predicate Configured(c: Config, after: Config, init: Init) {
    var section, credential := "remote." + init.remote + ".", "credential." + init.url + ".";
    && Get(after, section + "url") == Get(c, section + "url") + [init.url]
    && Get(after, section + "fetch") == Get(c, section + "fetch") + ["+refs/heads/*:refs/remotes/" + init.remote + "/*"]
    && Get(after, credential + "helper") == ["", "!scope git-credential"]
    && Get(after, credential + "usehttppath") == ["true"]
    && Get(after, "scope.apiurl") == [init.apiUrl]
    && Get(after, "scope.gitorigin") == [init.origin]
    && (forall k :: k != section + "url" && k != section + "fetch" && k != credential + "helper"
                    && k != credential + "usehttppath" && k != "scope.apiurl" && k != "scope.gitorigin" ==>
          Get(after, k) == Get(c, k))
  }

  lemma SettingsConfigure(c: Config, init: Init)
    ensures Configured(c, ApplyAll(c, Settings(init)), init)
  {
    KeysDiffer(init);
    var fetch := "+refs/heads/*:refs/remotes/" + init.remote + "/*";
    var u, f, h, p := UrlKey(init.remote), FetchKey(init.remote), HelperKey(init.url), UseHttpPathKey(init.url);
    var front := FrontOf(u, init.url, f, fetch, h, "", CREDENTIAL_HELPER);
    var back := BackOf(p, "true", API_URL_KEY, init.apiUrl, GIT_ORIGIN_KEY, init.origin);
    assert Settings(init) == front + back;
    ApplyInTwo(c, front, back);
    var between := ApplyAll(c, front);
    FrontSets(c, u, init.url, f, fetch, h, "", CREDENTIAL_HELPER);
    BackSets(between, p, "true", API_URL_KEY, init.apiUrl, GIT_ORIGIN_KEY, init.origin);
    var section, credential := "remote." + init.remote + ".", "credential." + init.url + ".";
    assert u == section + "url" && f == section + "fetch";
    assert h == credential + "helper" && p == credential + "usehttppath";
  }

  function FrontOf(u: Key, x: Value, f: Key, y: Value, h: Key, first: Value, second: Value): seq<Change> {
    [Add(u, x), Add(f, y), UnsetAll(h), Add(h, first), Add(h, second)]
  }

  function BackOf(p: Key, x: Value, a: Key, y: Value, o: Key, z: Value): seq<Change> {
    [ReplaceAll(p, x), ReplaceAll(a, y), ReplaceAll(o, z)]
  }

  lemma FrontSets(c: Config, u: Key, x: Value, f: Key, y: Value, h: Key, first: Value, second: Value)
    requires u != f && u != h && f != h
    ensures var after := ApplyAll(c, FrontOf(u, x, f, y, h, first, second));
            && Get(after, u) == Get(c, u) + [x] && Get(after, f) == Get(c, f) + [y] && Get(after, h) == [first, second]
            && forall k :: k != u && k != f && k != h ==> Get(after, k) == Get(c, k)
  {
    var changes := FrontOf(u, x, f, y, h, first, second);
    ApplyNext(c, changes, 0);
    ApplyNext(c, changes, 1);
    ApplyNext(c, changes, 2);
    ApplyNext(c, changes, 3);
    ApplyNext(c, changes, 4);
    assert changes[..0] == [] && changes[..5] == changes;
  }

  lemma BackSets(c: Config, p: Key, x: Value, a: Key, y: Value, o: Key, z: Value)
    requires p != a && p != o && a != o
    ensures var after := ApplyAll(c, BackOf(p, x, a, y, o, z));
            && Get(after, p) == [x] && Get(after, a) == [y] && Get(after, o) == [z]
            && forall k :: k != p && k != a && k != o ==> Get(after, k) == Get(c, k)
  {
    var changes := BackOf(p, x, a, y, o, z);
    ApplyNext(c, changes, 0);
    ApplyNext(c, changes, 1);
    ApplyNext(c, changes, 2);
    assert changes[..0] == [] && changes[..3] == changes;
  }

  /**
    A whole configuration leaves exactly this: of an existing remote nothing but the new address and fetch rule,
    of a new one these beside what was there, the credential and Scope settings, and every other key as it was.
   */
  lemma ConfigurationLeaves(c: Config, init: Init, exists_: bool, section: seq<Key>)
    requires forall k :: k in section <==> exists_ && k in SectionKeys(c, init.remote)
    ensures var cleared := if exists_ then c - SectionKeys(c, init.remote) else c;
            Configured(cleared, ApplyAll(c, Configuration(init, section)), init)
  {
    ApplyInTwo(c, Unsets(section), Settings(init));
    UnsetsClear(c, section);
    var keys := set i | 0 <= i < |section| :: section[i];
    forall k ensures k in keys <==> k in section {
    }
    assert ApplyAll(c, Unsets(section)) == if exists_ then c - SectionKeys(c, init.remote) else c;
    SettingsConfigure(ApplyAll(c, Unsets(section)), init);
  }

  lemma {:induction false} UnsetsClear(c: Config, keys: seq<Key>)
    ensures ApplyAll(c, Unsets(keys)) == c - (set i | 0 <= i < |keys| :: keys[i])
    decreases |keys|
  {
    if keys != [] {
      UnsetsClear(c - {keys[0]}, keys[1..]);
      assert Unsets(keys)[1..] == Unsets(keys[1..]);
      var all, rest := set i | 0 <= i < |keys| :: keys[i], set i | 0 <= i < |keys[1..]| :: keys[1..][i];
      forall k ensures k in all <==> k == keys[0] || k in rest {
        if k in all && k != keys[0] {
          var i :| 0 <= i < |keys| && keys[i] == k;
          assert keys[1..][i - 1] == k;
        }
        if k in rest {
          var i :| 0 <= i < |keys[1..]| && keys[1..][i] == k;
          assert keys[i + 1] == k;
        }
      }
      assert all == {keys[0]} + rest;
    }
  }

  lemma {:induction false} ApplyOneMore(c: Config, changes: seq<Change>, last: Change)
    ensures ApplyAll(c, changes + [last]) == Apply(ApplyAll(c, changes), last)
    decreases |changes|
  {
    if changes == [] {
      assert [last][1..] == [];
    } else {
      ApplyOneMore(Apply(c, changes[0]), changes[1..], last);
      assert (changes + [last])[1..] == changes[1..] + [last];
    }
  }
}
