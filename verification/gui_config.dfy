/**
 * The configuration of src/aws_adfs_gui/config.py: a `ConfigModel` holding
 * the group-to-profiles table and four bounded scalars, saved as a JSON
 * document whose group keys are the groups' string values, and loaded back
 * with a fallback to the default configuration on any decoding error. The
 * JSON file is a `ConfigFile` value; profile records inside it are taken as
 * already parsed.
 */
module GuiConfig {
  import opened Wrappers
  import opened Models
  import opened ProfileRegistry

  datatype ConfigModel = ConfigModel(
    profiles: GroupTable := [],
    defaultCommand: string := "aws s3 ls",
    maxHistory: int := 100,
    timeout: int := 30,
    defaultRegion: string := "us-east-1")

  /** The field bounds `ConfigModel` validates: `1 <= max_history <= 1000` and `1 <= timeout <= 300`. */
  predicate WithinBounds(maxHistory: int, timeout: int) {
    1 <= maxHistory <= 1000 && 1 <= timeout <= 300
  }

  /** A configuration the model accepts: bounded scalars and one entry per group. */
  predicate WellFormed(c: ConfigModel) {
    WithinBounds(c.maxHistory, c.timeout) && ValidTable(c.profiles)
  }

  /** The configuration written when none can be read: the default profiles and every scalar at its default. */
  const DefaultConfig: ConfigModel := ConfigModel(profiles := DefaultProfiles)

  lemma DefaultConfigWellFormed()
    ensures WellFormed(DefaultConfig) && WellFormed(ConfigModel())
    ensures DefaultConfig.defaultCommand == "aws s3 ls" && DefaultConfig.maxHistory == 100
    ensures DefaultConfig.timeout == 30 && DefaultConfig.defaultRegion == "us-east-1"
  {
    DefaultProfilesShape();
  }

  /** One key of the stored `profiles` object: the group as a string, with its profile list. */
  datatype StoredEntry = StoredEntry(key: string, profiles: seq<AWSProfile>)

  /** The stored JSON object; each top-level key may be absent. */
  datatype StoredConfig = StoredConfig(
    profiles: Option<seq<StoredEntry>>,
    defaultCommand: Option<string>,
    maxHistory: Option<int>,
    timeout: Option<int>,
    defaultRegion: Option<string>)

  /** The file on disk: absent, not decodable as JSON, or a JSON object. */
  datatype ConfigFile = NoFile | Undecodable | Document(data: StoredConfig)

  /** Why a document does not load: a key that names no group, or a scalar outside its bounds. */
  datatype LoadError = UnknownGroup(key: string) | OutOfBounds

  /** The stored form of the table: each group key replaced by its string value. */
  function EncodeGroups(t: GroupTable): (es: seq<StoredEntry>)
    ensures |es| == |t|
    ensures forall i :: 0 <= i < |t| ==> es[i] == StoredEntry(t[i].group.Value(), t[i].profiles)
  {
    seq(|t|, i requires 0 <= i < |t| => StoredEntry(t[i].group.Value(), t[i].profiles))
  }

  /** What `save_config` writes for a configuration. */
  function Encode(c: ConfigModel): (d: StoredConfig)
    ensures d.profiles.Some? && d.defaultCommand == Some(c.defaultCommand) && d.maxHistory == Some(c.maxHistory)
    ensures d.timeout == Some(c.timeout) && d.defaultRegion == Some(c.defaultRegion)
    ensures |d.profiles.value| == |c.profiles|
    ensures forall i :: 0 <= i < |c.profiles| ==>
              d.profiles.value[i].key == c.profiles[i].group.Value() && d.profiles.value[i].profiles == c.profiles[i].profiles
  {
    StoredConfig(Some(EncodeGroups(c.profiles)), Some(c.defaultCommand), Some(c.maxHistory),
                 Some(c.timeout), Some(c.defaultRegion))
  }

  /** Python's `d[g] = ps`: replaces the list of an existing key, or adds the key last. */
  function Put(t: GroupTable, g: ProfileGroup, ps: seq<AWSProfile>): (r: GroupTable)
    ensures ValidTable(t) ==> ValidTable(r)
    ensures ProfilesOf(r, g) == ps
    ensures forall h :: h != g ==> ProfilesOf(r, h) == ProfilesOf(t, h)
  {
    var k := IndexOfGroup(t, g);
    var r := if k < |t| then t[k := GroupEntry(g, ps)] else t + [GroupEntry(g, ps)];
    IndexOfGroupIs(r, g, k);
    forall h | h != g
      ensures ProfilesOf(r, h) == ProfilesOf(t, h)
    {
      var kh := IndexOfGroup(t, h);
      IndexOfGroupIs(r, h, if kh < |t| then kh else |r|);
    }
    r
  }

  /** The key conversion loop of `load_config`: stops at the first key that names no group. */
  function DecodeGroups(es: seq<StoredEntry>): (r: Result<GroupTable, LoadError>)
    ensures r.Success? ==> ValidTable(r.value)
  {
    if es == [] then Success([])
    else
      var init, last := es[..|es| - 1], es[|es| - 1];
      match DecodeGroups(init)
      case Failure(e) => Failure(e)
      case Success(t) =>
        match ParseGroup(last.key)
        case None => Failure(UnknownGroup(last.key))
        case Some(g) => Success(Put(t, g, last.profiles))
  }

  /** Decoding succeeds exactly when every key names a group; otherwise the error names a key that does not. */
  lemma {:induction false} DecodeGroupsSpec(es: seq<StoredEntry>)
    ensures DecodeGroups(es).Success? <==> forall i :: 0 <= i < |es| ==> ParseGroup(es[i].key).Some?
    ensures DecodeGroups(es).Failure? ==>
              exists i :: 0 <= i < |es| && DecodeGroups(es).error == UnknownGroup(es[i].key)
                          && ParseGroup(es[i].key).None?
  {
    if es != [] {
      var init, last := es[..|es| - 1], es[|es| - 1];
      DecodeGroupsSpec(init);
      assert forall i :: 0 <= i < |init| ==> init[i] == es[i];
      if DecodeGroups(init).Failure? {
        var i :| 0 <= i < |init| && DecodeGroups(init).error == UnknownGroup(init[i].key)
                 && ParseGroup(init[i].key).None?;
        assert es[i] == init[i];
      }
    }
  }

  /** What `load_config` makes of a JSON object: absent scalars take their defaults, then the bounds are checked. */
  function Decode(d: StoredConfig): (r: Result<ConfigModel, LoadError>)
    ensures r.Success? ==> WellFormed(r.value)
    ensures r.Success? <==> DecodeGroups(d.profiles.GetOr([])).Success?
                            && WithinBounds(d.maxHistory.GetOr(100), d.timeout.GetOr(30))
    ensures r.Success? ==> r.value.defaultCommand == d.defaultCommand.GetOr("aws s3 ls")
                           && r.value.maxHistory == d.maxHistory.GetOr(100)
                           && r.value.timeout == d.timeout.GetOr(30)
                           && r.value.defaultRegion == d.defaultRegion.GetOr("us-east-1")
  {
    match DecodeGroups(d.profiles.GetOr([]))
    case Failure(e) => Failure(e)
    case Success(t) =>
      var c := ConfigModel(t, d.defaultCommand.GetOr("aws s3 ls"), d.maxHistory.GetOr(100),
                           d.timeout.GetOr(30), d.defaultRegion.GetOr("us-east-1"));
      if WithinBounds(c.maxHistory, c.timeout) then Success(c) else Failure(OutOfBounds)
  }

  /** Decoding the encoded keys gives the same table back. */
  lemma {:induction false} DecodeEncodeGroups(t: GroupTable)
    requires ValidTable(t)
    ensures DecodeGroups(EncodeGroups(t)) == Success(t)
  {
    if t != [] {
      var n := |t| - 1;
      var front := t[..n];
      assert EncodeGroups(t)[..n] == EncodeGroups(front);
      DecodeEncodeGroups(front);
      GroupValueRoundTrip(t[n].group);
      IndexOfGroupIs(front, t[n].group, |front|);
      assert front + [GroupEntry(t[n].group, t[n].profiles)] == t;
    }
  }

  /** Saving then loading a well-formed configuration gives it back unchanged. */
  lemma DecodeEncode(c: ConfigModel)
    requires WellFormed(c)
    ensures Decode(Encode(c)) == Success(c)
  {
    DecodeEncodeGroups(c.profiles);
  }

  /** Whether `load_config` falls back to (and saves) the default configuration. */
  predicate FallsBack(file: ConfigFile) {
    !file.Document? || Decode(file.data).Failure?
  }

  /** The configuration `load_config` returns for a file. */
  function Loaded(file: ConfigFile): (c: ConfigModel)
    ensures WellFormed(c)
    ensures FallsBack(file) ==> c == DefaultConfig
    ensures !FallsBack(file) ==> file.Document? && Decode(file.data) == Success(c)
  {
    DefaultConfigWellFormed();
    if FallsBack(file) then DefaultConfig else Decode(file.data).value
  }

  /** Loading the file that saving a well-formed configuration writes gives that configuration back. */
  lemma LoadSaved(c: ConfigModel)
    requires WellFormed(c)
    ensures !FallsBack(Document(Encode(c)))
    ensures Loaded(Document(Encode(c))) == c
  {
    DecodeEncode(c);
  }

  /** The `ConfigManager` class: the one thing that changes is the file it saves to. */
  class ConfigManager {
    var file: ConfigFile

    constructor (file: ConfigFile)
      ensures this.file == file
    {
      this.file := file;
    }

    method SaveConfig(config: ConfigModel)
      modifies this`file
      ensures file == Document(Encode(config))
    {
      var entries: seq<StoredEntry> := [];
      var i := 0;
      while i < |config.profiles|
        invariant 0 <= i <= |config.profiles|
        invariant entries == EncodeGroups(config.profiles[..i])
      {
        var e := config.profiles[i];
        entries := entries + [StoredEntry(e.group.Value(), e.profiles)];
        i := i + 1;
      }
      assert config.profiles[..i] == config.profiles;
      file := Document(StoredConfig(Some(entries), Some(config.defaultCommand), Some(config.maxHistory),
                                    Some(config.timeout), Some(config.defaultRegion)));
    }

    method CreateDefaultConfig() returns (config: ConfigModel)
      modifies this`file
      ensures config == DefaultConfig
      ensures file == Document(Encode(DefaultConfig))
    {
      config := DefaultConfig;
      SaveConfig(config);
    }

    /** Reads the file; when it is missing or does not decode, the default configuration is returned and saved. */
    method LoadConfig() returns (config: ConfigModel)
      modifies this`file
      ensures config == Loaded(old(file))
      ensures file == if FallsBack(old(file)) then Document(Encode(DefaultConfig)) else old(file)
    {
      if !file.Document? {
        config := CreateDefaultConfig();
        return;
      }
      var data := file.data;
      var es := data.profiles.GetOr([]);
      var profiles: GroupTable := [];
      var i := 0;
      while i < |es|
        invariant 0 <= i <= |es|
        invariant DecodeGroups(es[..i]) == Success(profiles)
      {
        assert es[..i + 1][..i] == es[..i];
        var g := ParseGroup(es[i].key);
        if g.None? {
          assert DecodeGroups(es[..i + 1]).Failure?;
          DecodeGroupsFailsOnPrefix(es, i + 1);
          config := CreateDefaultConfig();
          return;
        }
        profiles := Put(profiles, g.value, es[i].profiles);
        i := i + 1;
      }
      assert es[..i] == es;
      var maxHistory, timeout := data.maxHistory.GetOr(100), data.timeout.GetOr(30);
      if !WithinBounds(maxHistory, timeout) {
        config := CreateDefaultConfig();
        return;
      }
      config := ConfigModel(profiles, data.defaultCommand.GetOr("aws s3 ls"), maxHistory, timeout,
                            data.defaultRegion.GetOr("us-east-1"));
    }

    method GetProfilesByGroup(group: ProfileGroup) returns (profiles: seq<AWSProfile>)
      modifies this`file
      ensures profiles == ProfilesOf(Loaded(old(file)).profiles, group)
      ensures file == if FallsBack(old(file)) then Document(Encode(DefaultConfig)) else old(file)
    {
      var config := LoadConfig();
      var k := IndexOfGroup(config.profiles, group);
      profiles := if k < |config.profiles| then config.profiles[k].profiles else [];
    }

    method GetAllProfiles() returns (all: seq<AWSProfile>)
      modifies this`file
      ensures all == AllProfiles(Loaded(old(file)).profiles)
      ensures file == if FallsBack(old(file)) then Document(Encode(DefaultConfig)) else old(file)
    {
      var config := LoadConfig();
      all := [];
      var i := 0;
      while i < |config.profiles|
        invariant 0 <= i <= |config.profiles|
        invariant all == AllProfiles(config.profiles[..i])
      {
        assert config.profiles[..i + 1][..i] == config.profiles[..i];
        all := all + config.profiles[i].profiles;
        i := i + 1;
      }
      assert config.profiles[..i] == config.profiles;
    }
  }

  /** A key that fails to decode makes every longer list fail too. */
  lemma {:induction false} DecodeGroupsFailsOnPrefix(es: seq<StoredEntry>, n: nat)
    requires n <= |es|
    requires DecodeGroups(es[..n]).Failure?
    ensures DecodeGroups(es).Failure?
  {
    DecodeGroupsSpec(es[..n]);
    DecodeGroupsSpec(es);
    var i :| 0 <= i < n && ParseGroup(es[..n][i].key).None?;
    assert es[i] == es[..n][i];
  }

  /** The total number of profiles `GetAllProfiles` returns is the sum of the list lengths. */
  lemma AllProfilesLength(c: ConfigModel)
    ensures |AllProfiles(c.profiles)| == TotalCount(c.profiles)
  {
    ProfileNamesCount(c.profiles);
  }
}
